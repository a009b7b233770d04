# Wellbeing diary: a verified model of the data layer

This project models the in-memory data layer of a wellbeing diary app (a
TypeScript/React application packaged with Capacitor) in Dafny, and proves
properties of the model. It covers:

- the record validators;
- the snapshot store, with its listeners and its one-shot initialization;
- the second generation of meal, water, weight and settings actions
  (validate, write to the database, re-read into the snapshot);
- backup naming, listing, creation, restore and deletion;
- the event bus and the capped error log;
- the computations inside four widgets: today's water total and norm, today's
  meal count and per-type counts, the latest meal time, and the water-amount
  clamp;
- the emotion table;
- the list operations of the two notes pages.

Each source file becomes one module:

| module | file |
|---|---|
| `Validation` | `validation.dfy` |
| `AppStore` | `app_store.dfy` |
| `MealActions`, `WaterActions`, `WeightActions`, `SettingsActions` | `*_actions.dfy` |
| `BackupNames` (pure naming, listing and sorting) | `backup_names.dfy` |
| `BackupRestore` (effect sequences) | `backup_restore.dfy` |
| `Events` | `event_bus.dfy` |
| `ErrorLogging` | `error_logger.dfy` |
| `WaterIndicator` | `water_indicator.dfy` |
| `MealCounter` | `meal_counter.dfy` |
| `MealCountWidget` | `meal_count_widget.dfy` |
| `WaterAmountControl` | `water_amount_control.dfy` |
| `EmojiRating` | `emoji_rating.dfy` |
| `FolderNotes` (the folder page, `src/components/notes/NotesPage.tsx`) | `folder_notes.dfy` |
| `NotesPage` (the single-list page, `src/pages/NotesPage.tsx`) | `notes_page.dfy` |

Helper modules:
- `Wrappers` holds `Option` and `Result`.
- `Runtime` holds the platform and the failure kinds.
- `Strings` holds character classes, JavaScript `trim`, `replace` of one character and the lexicographic order.
- `Lists` holds filter-by-value, and find-index, filter and replace by a key such as an id; the store and both notes pages use them.
- `AppData` holds the record types, the defaults and the settings merge.
- `Gateway` is the database: one table per record kind that hands out fresh ids, plus a settings row.

Code that only computes is written as functions and lemmas. Code that updates
state in place is written as classes whose methods name what they modify. These
are the store, the event bus, the error log, the database tables, the backup
storage and the two notes pages' state.

Every effect that can fail is modelled as a boolean parameter: a database
query, a filesystem or `localStorage` write, a log persistence. A thrown error
becomes a `Failure` result. `Date.now()` and `new Date().toISOString()` become
parameters.

Callbacks are identities, and calling one appends an `Invocation` to a shared
`Trace`. That makes the order "store listeners first, then the bus event"
observable.

## Model

| member | source | states |
|---|---|---|
| Validation.IsIsoDateShape | src/lib/validation.ts:15-16 | a date passes iff it is exactly four digits, `-`, two digits, `-`, two digits |
| Validation.NoCalendarCheck | src/lib/validation.ts:15-16 | no calendar check is made: "2024-13-99" passes |
| Validation.IsClockTimeShape | src/lib/validation.ts:18-19 | a time passes iff it is `DD:DD` or `DD:DD:DD` in digits |
| Validation.Push | src/lib/validation.ts:10-28 | appending an error keeps the list in check order and adds exactly that error when its condition holds |
| Validation.MealPresenceErrors | src/lib/validation.ts:10-12 | the presence errors of a meal are exactly the missing date, time and type, in check order |
| Validation.MealFormatErrors | src/lib/validation.ts:10-20 | the presence and format errors of a meal are exactly its violated presence and format rules, in check order |
| Validation.MealErrors | src/lib/validation.ts:10-28 | every violated meal rule contributes its error, no other error appears, and all are listed together in check order |
| Validation.WaterPresenceErrors | src/lib/validation.ts:43-45 | the presence errors of a water entry are exactly the missing date, time and amount |
| Validation.WaterFormatErrors | src/lib/validation.ts:43-53 | the presence and format errors of a water entry are exactly its violated presence and format rules, in check order |
| Validation.WaterErrors | src/lib/validation.ts:43-58 | every violated water rule contributes its error, and only those, in check order |
| Validation.WeightErrors | src/lib/validation.ts:73-84 | every violated weight-metric rule contributes its error, and only those, in check order |
| Validation.SettingsErrors | src/lib/validation.ts:99-109 | every violated settings rule contributes its error, and only those, in check order |
| Validation.Judge | src/lib/validation.ts:30-35 | valid iff the error list is empty; errors are reported exactly when invalid, as the list of messages |
| Validation.ValidateMealAccepts | src/lib/validation.ts:6-36 | a meal is accepted iff date, time and type are present and well formed and each present level lies in [0,10]; a rejection carries at least one message |
| Validation.MissingDateIsNotMisformatted | src/lib/validation.ts:10-16 | an empty date gives the "not specified" error and never the format error |
| Validation.LevelChecks | src/lib/validation.ts:23-28 | an absent level gives no error; a present one outside [0,10] gives exactly its range error |
| Validation.ValidateWaterAccepts | src/lib/validation.ts:39-66 | a water entry is accepted iff its date and time are present and well formed and 0 < amount <= 3000 |
| Validation.MissingAmountOnlyPresence | src/lib/validation.ts:45-58 | an undefined amount gives only the presence error, not the range error |
| Validation.ValidateWeightAccepts | src/lib/validation.ts:69-92 | a weight metric is accepted iff its date is present and well formed and the weight lies in [20,500] |
| Validation.ValidateSettingsAccepts | src/lib/validation.ts:95-117 | settings are accepted iff the theme is light, dark or system, the height lies in [50,250] and the weight in [20,500] |
| Validation.DefaultSettingsValid | src/store/useAppStore.ts:26-38 | the default settings pass `validateSettings` |
| Validation.TooMuchWaterRejected | src/lib/validation.ts:56-58 | 5000 ml is rejected with the range message |
| AppData.MergeNoChange | src/store/useAppStore.ts:269 | merging an empty partial leaves the settings as they are |
| AppData.MergeIdempotent | src/store/actions/settingsActions.ts:13-16 | applying the same partial twice gives the same settings as applying it once |
| AppData.MergeTwice | src/store/actions/settingsActions.ts:13-16 | two merges in a row equal one merge of the combined partial; the later partial wins field by field |
| AppData.MergeHeightOnly | src/store/actions/settingsActions.ts:13-16 | a partial that carries only the height changes only the height |
| Events.InvocationsInOrder | src/store/eventBus.ts:17-20 | an emit makes one invocation per registered callback, the i-th calling the i-th callback with the given arguments |
| Events.CalledInvocations | src/store/eventBus.ts:17-20 | the callbacks called by an emit are exactly the registered list, in order |
| Events.CallsPerRegistration | src/store/eventBus.ts:9-19 | a callback is called once per registration, so one registered twice runs twice |
| Events.OffSilences | src/store/eventBus.ts:12-15 | after `off` an emit calls that callback no more and every other callback as often as before |
| Events.Trace.Invoke | src/store/eventBus.ts:19 | calling a callback appends exactly that invocation to the trace |
| Events.EventBus.On | src/store/eventBus.ts:7-10 | the callback is appended to that event's list, which is created when absent; other events are untouched |
| Events.EventBus.Off | src/store/eventBus.ts:12-15 | every occurrence of the callback is removed from that event only; an unknown event is left alone |
| Events.EventBus.Emit | src/store/eventBus.ts:17-20 | the event's callbacks are called in registration order with the arguments; an unknown event calls nothing |
| ErrorLogging.KeepNewest | src/lib/errorLogger.ts:54-56 | the result is the newest n entries (all of them when there are at most n), in their original order |
| ErrorLogging.AppendKeepsEntry | src/lib/errorLogger.ts:51-56 | after an append the log has at most 500 entries and the new entry is last |
| ErrorLogging.KeepNewestBelowCap | src/lib/errorLogger.ts:54-56 | below the cap nothing is dropped |
| ErrorLogging.ExportFileName | src/lib/errorLogger.ts:156 | the export file is `logs_` + the timestamp with `:` made `-` + `.json`, and never holds a colon |
| ErrorLogging.ErrorLog.InitLogger | src/lib/errorLogger.ts:18-44 | once initialized, nothing happens; otherwise the persisted copy is loaded, and a copy that does not parse empties the log and leaves the logger uninitialized |
| ErrorLogging.ErrorLog.WriteToLog | src/lib/errorLogger.ts:47-75 | the log becomes the newest 500 of the loaded log plus the entry, the entry last; a failing persist is swallowed and the in-memory append still happens |
| ErrorLogging.ErrorLog.LogError | src/lib/errorLogger.ts:78-91 | writes one entry of level "error" with the message, data and timestamp |
| ErrorLogging.ErrorLog.LogWarning | src/lib/errorLogger.ts:94-104 | writes one entry of level "warn" with the message, data and timestamp |
| ErrorLogging.ErrorLog.LogInfo | src/lib/errorLogger.ts:107-117 | writes one entry of level "info" with the message, data and timestamp |
| ErrorLogging.ErrorLog.GetLogs | src/lib/errorLogger.ts:120-123 | initializes when needed and returns a copy equal to the log |
| ErrorLogging.ErrorLog.ClearLogs | src/lib/errorLogger.ts:126-143 | the log becomes empty; the empty list is persisted unless that write fails, which is swallowed |
| ErrorLogging.ErrorLog.ExportLogs | src/lib/errorLogger.ts:146-169 | returns null iff the log is empty; otherwise returns the content on the web, or writes the file on native and returns its name, or fails when the write fails |
| Gateway.Table.Append | src/store/actions/mealActions.ts:18 | an insert appends the row under the next id, which no earlier row carries, and returns that id; a failure changes nothing |
| Gateway.Table.All | src/store/actions/mealActions.ts:21 | a full read returns every row in order, or fails |
| Gateway.Table.Replace | src/store/actions/mealActions.ts:40 | an update replaces the row with the same id, and an unknown id changes nothing; a failure changes nothing |
| Gateway.Table.Remove | src/store/actions/mealActions.ts:53 | a delete removes the rows with that id; a failure changes nothing |
| Gateway.Database.GetSettings | src/store/useAppStore.ts:70 | returns the stored settings, absent before the first save, or fails |
| Gateway.Database.SaveSettings | src/store/actions/settingsActions.ts:18 | stores the whole settings value, or fails and changes nothing |
| Gateway.Database.InsertMeal | src/store/useAppStore.ts:107 | the table assigns a fresh id, whatever id the record carries |
| Gateway.Database.InsertWater | src/store/useAppStore.ts:161 | the table assigns a fresh id, whatever id the record carries |
| Gateway.Database.InsertWeight | src/store/useAppStore.ts:215 | the table assigns a fresh id, whatever id the record carries |
| AppStore.Store.constructor | src/store/useAppStore.ts:26-41 | before initialization the snapshot holds empty lists and the default settings, with no listeners, not initialized |
| AppStore.Store.Subscribe | src/store/useAppStore.ts:43-45 | the callback is appended to the listeners |
| AppStore.Store.Unsubscribe | src/store/useAppStore.ts:46-47 | every occurrence of the callback is removed and the other listeners keep their order |
| AppStore.Store.Notify | src/store/useAppStore.ts:50-53 | every listener is called in registration order, then `appStateChange` is emitted once |
| AppStore.Store.ReadTables | src/store/useAppStore.ts:60-66 | the three lists are read exactly when setup, the photo directory and all three reads succeed, and are then the tables' full contents |
| AppStore.Store.Load | src/store/useAppStore.ts:59-83 | a failing load changes nothing; otherwise the lists are loaded, stored settings replace the defaults, and missing settings make the defaults saved |
| AppStore.Store.InitializeAppState | src/store/useAppStore.ts:56-93 | works only while not initialized; on success it sets the flag and notifies exactly once; on a failure the flag stays false and nothing is notified; later calls return the snapshot unchanged |
| AppStore.Store.AddMeal | src/store/useAppStore.ts:104-121 | prepends exactly one meal carrying the fresh id, keeps the others in order and notifies; a failure changes nothing |
| AppStore.Store.UpdateMeal | src/store/useAppStore.ts:123-138 | replaces the meals with that id, keeping length and order, and notifies; a failure changes nothing |
| AppStore.Store.DeleteMeal | src/store/useAppStore.ts:140-155 | removes exactly the meals with that id, keeping the rest in order, and notifies; a failure changes nothing |
| AppStore.Store.AddWater | src/store/useAppStore.ts:158-175 | prepends exactly one water entry carrying the fresh id and notifies; a failure changes nothing |
| AppStore.Store.UpdateWater | src/store/useAppStore.ts:177-192 | replaces the water entries with that id and notifies; a failure changes nothing |
| AppStore.Store.DeleteWater | src/store/useAppStore.ts:194-209 | removes exactly the water entries with that id and notifies; a failure changes nothing |
| AppStore.Store.AddWeight | src/store/useAppStore.ts:212-229 | prepends exactly one weight metric carrying the fresh id and notifies; a failure changes nothing |
| AppStore.Store.UpdateWeight | src/store/useAppStore.ts:231-246 | replaces the weight metrics with that id and notifies; a failure changes nothing |
| AppStore.Store.DeleteWeight | src/store/useAppStore.ts:248-263 | removes exactly the weight metrics with that id and notifies; a failure changes nothing |
| AppStore.Store.UpdateSettings | src/store/useAppStore.ts:266-284 | the settings become the current ones overridden field by field by the partial, only after the save succeeds; a failure is rethrown with nothing changed |
| AppStore.Store.SetAppState | src/store/useAppStore.ts:291-294 | replaces exactly the fields the partial carries, then notifies |
| Lists.RemoveByKeyIdempotent | src/store/useAppStore.ts:148 | deleting by id twice is the same as deleting once |
| Lists.RemoveByKeyElements | src/store/useAppStore.ts:148 | a record survives a delete iff it was there and carries another id |
| Lists.ReplaceByKeyKeys | src/store/useAppStore.ts:131 | an update by id keeps the sequence of ids |
| Lists.ReplaceByKeyAbsent | src/store/useAppStore.ts:131 | an update with an unknown id leaves the list unchanged |
| Lists.RemoveByKeyAbsent | src/pages/NotesPage.tsx:78 | deleting an id that no element carries changes nothing |
| Lists.IndexOfKey | src/components/notes/NotesPage.tsx:97-103 | `findIndex` gives −1 iff no element has the id, else the first position that has it |
| MealActions.Reload | src/store/actions/mealActions.ts:21-22 | `meals` becomes the table's full list and no other field changes; a failing read is logged and rethrown with the snapshot untouched |
| MealActions.Insert | src/store/actions/mealActions.ts:18-29 | a successful insert appends the meal under a fresh id and returns that id, leaving the log alone; a failing one changes no row and logs the add failure |
| MealActions.ReplaceRow | src/store/actions/mealActions.ts:40-48 | a successful update replaces the row with that id and keeps the rest; a failing one changes no row and logs the update failure |
| MealActions.RemoveRow | src/store/actions/mealActions.ts:53-60 | a successful delete drops the row with that id and keeps the rest; a failing one changes no row and logs the delete failure |
| MealActions.AddMeal | src/store/actions/mealActions.ts:10-30 | an invalid meal returns null with no write and no change; a valid one is inserted, re-read into `meals` and returned with the table's id; a failure is logged and rethrown with the snapshot unchanged |
| MealActions.UpdateMeal | src/store/actions/mealActions.ts:32-49 | an invalid meal is rejected before the update; otherwise the table's row is replaced and `meals` re-read; a failure is logged and rethrown |
| MealActions.DeleteMeal | src/store/actions/mealActions.ts:51-61 | deletes without validation and re-reads `meals`; a failure is logged and rethrown |
| WaterActions.Reload | src/store/actions/waterActions.ts:21-22 | `water` becomes the table's full list and no other field changes; a failing read is logged and rethrown |
| WaterActions.Insert | src/store/actions/waterActions.ts:18-29 | a successful insert appends the entry under a fresh id and returns that id, leaving the log alone; a failing one changes no row and logs the add failure |
| WaterActions.ReplaceRow | src/store/actions/waterActions.ts:40-48 | a successful update replaces the row with that id and keeps the rest; a failing one changes no row and logs the update failure |
| WaterActions.RemoveRow | src/store/actions/waterActions.ts:53-60 | a successful delete drops the row with that id and keeps the rest; a failing one changes no row and logs the delete failure |
| WaterActions.AddWater | src/store/actions/waterActions.ts:10-30 | an invalid entry returns null with no write and no change; a valid one is inserted, re-read and returned with the table's id; a failure is rethrown with the snapshot unchanged |
| WaterActions.UpdateWater | src/store/actions/waterActions.ts:32-49 | an invalid entry is rejected before the update; otherwise the row is replaced and `water` re-read |
| WaterActions.DeleteWater | src/store/actions/waterActions.ts:51-61 | deletes without validation and re-reads `water`; a failure is logged and rethrown |
| WeightActions.Reload | src/store/actions/weightActions.ts:21-22 | `weights` becomes the table's full list and no other field changes; a failing read is logged and rethrown |
| WeightActions.Insert | src/store/actions/weightActions.ts:18-29 | a successful insert appends the metric under a fresh id and returns that id, leaving the log alone; a failing one changes no row and logs the add failure |
| WeightActions.ReplaceRow | src/store/actions/weightActions.ts:40-48 | a successful update replaces the row with that id and keeps the rest; a failing one changes no row and logs the update failure |
| WeightActions.RemoveRow | src/store/actions/weightActions.ts:53-60 | a successful delete drops the row with that id and keeps the rest; a failing one changes no row and logs the delete failure |
| WeightActions.AddWeight | src/store/actions/weightActions.ts:10-30 | an invalid metric returns null with no write and no change; a valid one is inserted, re-read and returned with the table's id |
| WeightActions.UpdateWeight | src/store/actions/weightActions.ts:32-49 | an invalid metric is rejected before the update; otherwise the row is replaced and `weights` re-read |
| WeightActions.DeleteWeight | src/store/actions/weightActions.ts:51-61 | deletes without validation and re-reads `weights`; a failure is logged and rethrown |
| SettingsActions.UpdateSettings | src/store/actions/settingsActions.ts:10-35 | returns the merged settings, saved, then set in the snapshot and mirrored into the fallback cache (a failing cache write is swallowed); a failing save is logged and rethrown with the snapshot and the cache untouched |
| SettingsActions.MergeCanBreakValidation | src/store/actions/settingsActions.ts:10-35 | nothing is validated: from valid settings, a partial can produce settings that `validateSettings` rejects |
| BackupNames.BackupName | src/lib/backupRestore.ts:10-56 | a name starts with `wellbeing_backup_` and never contains `:` |
| BackupNames.RunEnd | src/lib/backupRestore.ts:88-93 | `.*` stops at the first line terminator |
| BackupNames.LastJsonAt | src/lib/backupRestore.ts:88-90 | finds the last `.json` a greedy `(.+)` can end before, and there is none after it |
| BackupNames.GroupAt | src/lib/backupRestore.ts:88-93 | a captured date is non-empty and holds no line terminator |
| BackupNames.SearchBackupName | src/lib/backupRestore.ts:31-90 | the pattern finds, in a name built from a timestamp, that timestamp with `:` made `-` |
| BackupNames.DateOfBackupName | src/lib/backupRestore.ts:31-93 | decoding a built name gives the timestamp with every `-` made `:` |
| BackupNames.DateOfBackupNameIsNow | src/lib/backupRestore.ts:31-93 | decoding gives back the timestamp iff the timestamp has no `-`, so decoding is not the inverse of naming for ISO timestamps |
| BackupNames.ListedDate | src/lib/backupRestore.ts:88-93 | a name built at `year-month-rest` (no dash inside the parts, no line terminator) lists with the date `year:month:rest`; so `2024-05-01T10:30:00.000Z` lists as `2024:05:01T10:30:00.000Z` |
| BackupNames.UnmatchedFileIsUnknown | src/lib/backupRestore.ts:91-93 | for the one name `wellbeing_backup_x` (the prefix with no `.json` after it), the pattern does not match and the listed date is "неизвестно" |
| BackupNames.Listed | src/lib/backupRestore.ts:85-93 | every listed backup is a given name with the prefix, paired with its decoded date |
| BackupNames.ListedComplete | src/lib/backupRestore.ts:85-107 | every given name with the prefix is listed |
| BackupNames.InsertByDateCorrect | src/lib/backupRestore.ts:96 | inserting into a newest-first list keeps it newest first and adds exactly that backup |
| BackupNames.SortByDateDescCorrect | src/lib/backupRestore.ts:96-118 | the sorted list is in descending date order and a permutation of its input |
| BackupNames.NativeBackupList | src/lib/backupRestore.ts:97-100 | a failing directory read gives the empty list |
| BackupNames.NativeBackupListCorrect | src/lib/backupRestore.ts:70-96 | the native list is newest first and holds exactly the prefixed files with their decoded dates |
| BackupRestore.BackupStorage.Write | src/lib/backupRestore.ts:35-58 | the file or key holds the new artifact; a new name is added last |
| BackupRestore.BackupStorage.Remove | src/lib/backupRestore.ts:180-187 | the file or key is gone and the other names keep their order |
| BackupRestore.WithoutDistinct | src/lib/backupRestore.ts:180-187 | removing a name keeps the remaining names distinct |
| BackupRestore.CreateBackup | src/lib/backupRestore.ts:13-65 | on success stores the snapshot document (the three tables, and the settings or `{}` when none are stored) under the built name, adds a new name last, logs the info entry naming it and returns the name; a failing read or write is logged and rethrown with the storage unchanged |
| BackupRestore.GetBackupList | src/lib/backupRestore.ts:68-124 | on native, the filtered, decoded and sorted directory listing, empty when the read fails; on the web, the prefixed keys with their dates, newest first |
| BackupRestore.RestoreFromBackup | src/lib/backupRestore.ts:127-171 | a missing backup or an unparsable document fails; stored settings are saved, the restore is logged as info and true is returned; a failure is logged and rethrown with the settings untouched |
| BackupRestore.BackupRoundTrip | src/lib/backupRestore.ts:13-171 | with settings stored, creating a backup, saving any other settings, and restoring the backup, all without failures, returns true and brings back the settings stored when the backup was made |
| BackupRestore.DeleteBackup | src/lib/backupRestore.ts:174-192 | on native a missing file or a failing delete is logged and rethrown with the storage unchanged; otherwise the name and its artifact are gone, the others keep their order, the deletion is logged as info and true is returned |
| WaterIndicator.TodayWaterMembers | src/components/widgets/WaterIndicator.tsx:26 | an entry is kept iff it is in the list and dated today |
| WaterIndicator.WaterNorm | src/components/widgets/WaterIndicator.tsx:33-39 | the norm is 30 times the lesser of weight and height − 100, and depends only on the settings |
| WaterIndicator.TodayWaterAppend | src/components/widgets/WaterIndicator.tsx:26 | filtering distributes over concatenation |
| WaterIndicator.TotalAppend | src/components/widgets/WaterIndicator.tsx:29 | the total of two lists is the sum of their totals |
| WaterIndicator.TotalIsNumberIff | src/components/widgets/WaterIndicator.tsx:29 | the total is a number iff every entry carries an amount |
| WaterIndicator.TotalBounds | src/components/widgets/WaterIndicator.tsx:29 | with validated amounts the total lies between the entry count and 3000 ml per entry |
| WaterIndicator.OtherDatesIgnored | src/components/widgets/WaterIndicator.tsx:26-29 | an entry dated another day leaves today's total unchanged |
| WaterIndicator.TodayEntryAdds | src/components/widgets/WaterIndicator.tsx:26-29 | an entry dated today adds its amount to today's total |
| WaterIndicator.NormStaysMet | src/components/widgets/WaterIndicator.tsx:49 | drinking more today never undoes a met norm |
| WaterIndicator.DefaultNorm | src/components/widgets/WaterIndicator.tsx:33-39 | with the default settings the norm is 2100 ml |
| MealCounter.TodayMealsMembers | src/components/widgets/MealCounter.tsx:18 | a meal is kept iff it is in the list and dated today |
| MealCounter.BumpLookup | src/components/widgets/MealCounter.tsx:25-26 | counting a meal adds one to its type and to no other type |
| MealCounter.BumpKeys | src/components/widgets/MealCounter.tsx:25-26 | counting keeps the keys in insertion order and adds the type last when it is new |
| MealCounter.BumpDistinct | src/components/widgets/MealCounter.tsx:25-26 | counting keeps every key once |
| MealCounter.BumpPositive | src/components/widgets/MealCounter.tsx:25-26 | counting keeps every count at least one |
| MealCounter.BumpSum | src/components/widgets/MealCounter.tsx:25-26 | counting a meal adds one to the total of the counts |
| MealCounter.TypeCountsCorrect | src/components/widgets/MealCounter.tsx:24-28 | each type maps to the number of meals of that type; the keys are exactly the occurring types, each once, each with a count of at least one |
| MealCounter.TypeCountsSum | src/components/widgets/MealCounter.tsx:24-28 | the per-type counts add up to the number of meals |
| MealCounter.MealTypesAddUp | src/components/widgets/MealCounter.tsx:21-28 | today's per-type counts add up to today's meal count |
| MealCounter.TodayMealsAppend | src/components/widgets/MealCounter.tsx:18 | filtering distributes over concatenation |
| MealCounter.MealCountIsDateCount | src/components/widgets/MealCounter.tsx:18-21 | the meal count is the number of meals whose date is today |
| MealCountWidget.SortByTimeDescElements | src/components/widgets/MealCountWidget.tsx:20-22 | the sorted copy holds the same meals |
| MealCountWidget.InsertByTimeElements | src/components/widgets/MealCountWidget.tsx:20-22 | one insertion step adds exactly that meal |
| MealCountWidget.SortByTimeDescHead | src/components/widgets/MealCountWidget.tsx:20-22 | the head of the sorted copy is one of the meals and no meal has a later time |
| MealCountWidget.LatestAbsentIff | src/components/widgets/MealCountWidget.tsx:14-26 | the latest meal time is null iff there are no meals today |
| MealCountWidget.LatestIsGreatest | src/components/widgets/MealCountWidget.tsx:19-26 | otherwise it is the time of one of today's meals and no meal of today has a later time |
| WaterAmountControl.AdjustAmount | src/components/forms/water/WaterAmountControl.tsx:13-15 | the result is the sum clamped to [50, 2000] |
| WaterAmountControl.StepIsExact | src/components/forms/water/WaterAmountControl.tsx:14-34 | on the 50 ml grid an enabled button changes the amount by exactly 50 |
| WaterAmountControl.StepsCancel | src/components/forms/water/WaterAmountControl.tsx:14-34 | on the grid, "+" then "−" returns to the amount |
| WaterAmountControl.OffGridStepClamps | src/components/forms/water/WaterAmountControl.tsx:14-34 | off the grid a step can be shorter: "+" at 1990 gives 2000 |
| WaterAmountControl.AdjustIdempotent | src/components/forms/water/WaterAmountControl.tsx:13-15 | clamping an already clamped amount changes nothing |
| WaterAmountControl.EndsDisableOneButton | src/components/forms/water/WaterAmountControl.tsx:26-34 | within range, "−" is disabled iff the amount is 50 and "+" iff it is 2000, never both |
| WaterAmountControl.PresetsInRange | src/components/forms/water/WaterAmountControl.tsx:57-73 | the presets 100, 250 and 500 lie on the grid within range |
| EmojiRating.Find | src/components/EmojiRating.tsx:47-52 | `find` gives nothing iff no row has the value, otherwise a row with that value |
| EmojiRating.TableOrder | src/components/EmojiRating.tsx:14-20 | five emotions, very_bad to very_good in that order, with distinct values |
| EmojiRating.DefaultsAreNeutral | src/components/EmojiRating.tsx:17-54 | the defaults are the "neutral" row's emoji and label, and an absent emotion gets them |
| EmojiRating.KnownEmotion | src/components/EmojiRating.tsx:46-54 | a known emotion maps to its row's emoji and label |
| EmojiRating.UnknownEmotion | src/components/EmojiRating.tsx:46-54 | an unknown emotion maps to the defaults |
| EmojiRating.EmojiAndLabelAgree | src/components/EmojiRating.tsx:46-54 | the emoji is the default exactly when the label is |
| FolderNotes.Decimal | src/components/notes/NotesPage.tsx:115-153 | the decimal rendering of a timestamp is a non-empty run of digits |
| FolderNotes.DecimalInjective | src/components/notes/NotesPage.tsx:115-153 | different timestamps render differently |
| FolderNotes.NoteIdsDiffer | src/components/notes/NotesPage.tsx:115 | notes created at different times get different ids |
| FolderNotes.Rewrite | src/components/notes/NotesPage.tsx:101-111 | only the note at that index changes, to the new title, content and time; all ids are kept |
| FolderNotes.ToggleOnlyMatching | src/components/notes/NotesPage.tsx:174-180 | `expanded` flips on the folders with that id and nothing else changes |
| FolderNotes.ToggleTwice | src/components/notes/NotesPage.tsx:174-180 | toggling twice restores the folders |
| FolderNotes.DeletedFirstFolderStaysSelected | src/components/notes/NotesPage.tsx:165-171 | as written, deleting the selected first folder leaves the deleted folder selected |
| FolderNotes.SelectionAfterDelete | src/components/notes/NotesPage.tsx:165-171 | the deleted folder is never selected afterwards; another selection is kept; otherwise the first remaining folder, or nothing when none remains |
| FolderNotes.FolderNotesPage.constructor | src/components/notes/NotesPage.tsx:24-65 | the page starts with the sample folders, the first folder selected and no note open |
| FolderNotes.FolderNotesPage.OpenNote | src/components/notes/NotesPage.tsx:68-80 | an unknown folder or note changes nothing; otherwise the note is selected and loaded for reading |
| FolderNotes.FolderNotesPage.CreateNewNote | src/components/notes/NotesPage.tsx:83-90 | without a selected folder nothing happens; otherwise the note selection and fields are cleared and editing starts |
| FolderNotes.FolderNotesPage.SaveNote | src/components/notes/NotesPage.tsx:93-127 | no folder, or an unknown one, is a no-op; a selected note gets the new title and content with nothing else changed; without one, a new note is appended to that folder and selected |
| FolderNotes.FolderNotesPage.DeleteNote | src/components/notes/NotesPage.tsx:130-146 | without a selection nothing happens; otherwise the note is removed from the selected folder only and the selection is cleared |
| FolderNotes.FolderNotesPage.CreateFolder | src/components/notes/NotesPage.tsx:149-162 | a blank name is refused; otherwise an empty folder is appended and selected |
| FolderNotes.FolderNotesPage.DeleteFolder | src/components/notes/NotesPage.tsx:165-171 | folders with the id are removed; when the deleted folder was selected, the note selection is cleared and the first folder of the list from before the deletion is selected (so a deleted first folder stays selected); otherwise the selection is kept |
| FolderNotes.FolderNotesPage.ToggleFolder | src/components/notes/NotesPage.tsx:174-180 | flips `expanded` on the matching folder and changes nothing else |
| NotesPage.Find | src/pages/NotesPage.tsx:34 | `find` gives nothing iff no note has the id, otherwise a note with that id |
| NotesPage.Ids | src/pages/NotesPage.tsx:53-59 | the ids of a list, in order |
| NotesPage.RewriteOnlyMatching | src/pages/NotesPage.tsx:53-59 | a save replaces title, content and date of the notes with that id only, keeping the length and the order of ids |
| NotesPage.RewriteIdempotent | src/pages/NotesPage.tsx:53-59 | saving the same values twice is the same as once |
| NotesPage.DeleteUndoesCreate | src/pages/NotesPage.tsx:60-81 | deleting a freshly created note with a new id restores the list |
| NotesPage.NotesPageState.constructor | src/pages/NotesPage.tsx:5-31 | the page starts with the sample notes, nothing selected, not editing |
| NotesPage.NotesPageState.HandleSelectNote | src/pages/NotesPage.tsx:33-41 | an unknown id changes nothing; otherwise that note is selected and loaded for reading |
| NotesPage.NotesPageState.HandleNewNote | src/pages/NotesPage.tsx:43-48 | clears the selection and the fields and starts editing |
| NotesPage.NotesPageState.HandleSave | src/pages/NotesPage.tsx:50-73 | a blank title is a no-op; a selected note is rewritten in place; otherwise exactly one new note is prepended and selected |
| NotesPage.NotesPageState.HandleDelete | src/pages/NotesPage.tsx:75-82 | without a selection nothing happens; otherwise that id is removed and the selection and fields are cleared |

## Behaviour of the code worth knowing

- `initializeAppState` assigns the three lists to the snapshot before it saves the default settings. So when that save fails, the snapshot keeps the loaded lists, `initialized` stays false and nothing is notified (`AppStore.Store.Load`). No `localStorage` fallback is read during initialization.
- `settingsActions.ts` imports `appState`, which `useAppStore.ts` does not export. It is modelled as the store's current settings (`store.state.settings`).
- Neither `appActions.updateSettings` nor `settingsActions.updateSettings` validates the merged settings (`SettingsActions.MergeCanBreakValidation`).
- The first-generation store operations in `useAppStore.ts` rethrow without logging. Only the second-generation actions log.
- Restore touches only the settings. The lists in a backup document are not written back.

## Left out

- The SQLite layer. `src/lib/sqliteClient.ts` and `src/lib/initDb.ts` are not part of this model. The database is an abstract object with one sequence per table and a fresh-id supply per table.
- Gateway.Database.InsertMeal: `addMealEntry` returns nothing in the source, so the id the store receives is really `undefined`. The model treats it as the fresh id the table assigns.
- AppStore.Store.AddMeal: in the source the meal put at the front of `meals` carries `id: undefined`, because `addMealEntry` returns nothing. The model gives it the fresh id that `Gateway.Database.InsertMeal` hands back.
- MealActions.AddMeal: in the source the returned record carries `id: undefined` for the same reason. The model returns it with the table's fresh id. The snapshot itself is re-read from the table, so `meals` is the same in both.
- Filesystem, `localStorage`, `JSON.stringify`/`JSON.parse`, toasts and console output, and the `logWarning` call a validator makes when it rejects a record. Each read or write is a boolean failure parameter, and a parse is a `Garbled` artifact.
- The photo directory creation in `initializeAppState`. It is only a failure parameter, because `src/lib/photoFileSystem.ts` is file I/O.
- Floating-point arithmetic: the completion percentage of the water widget, and `parseFloat`/`parseInt` in the settings and weight forms. All numbers are integers.
- NaN: a water entry without an amount makes the JavaScript sum `NaN`. It is modelled as `None`, and `NaN >= norm` as false.
- Concurrency. The async interleaving of actions is not modelled, and each action is atomic.
- The `useSyncExternalStore` binding and all rendering. Initial state values before a widget's effect runs are not modelled.
- `localeCompare`: modelled as the lexicographic order of the characters, which agrees with it on the digit-and-punctuation strings the app compares but not on arbitrary text.
- MealCountWidget.SortByTimeDescElements and BackupNames.SortByDateDescCorrect: the sorts are stable insertion sorts like JavaScript's `sort`, but stability itself is not proved.
- BackupRestore.RestoreFromBackup: a document whose settings are `{}` makes the source call `saveSettings({})`, whose effect on the database is not in the repository. The model leaves the database settings unchanged in that case and reports only whether that write failed.
- BackupRestore.RestoreFromBackup: on the web, an empty stored string is treated by `!data` as missing. The model has no empty-string artifact distinct from a missing key.
- FolderNotes.FolderNotesPage: `saveNote` and `deleteNote` mutate the nested `notes` array of the shallow-copied folder in place, which also changes the previous render's folder object. The model updates the folder list as a value, so that aliasing is not captured.
- FolderNotes.FolderNotesPage: a folder whose `expanded` is `undefined` is modelled as `false`.
- Timestamps and dates are strings or integers supplied by the caller. `Date` arithmetic and formatting are not modelled.
- The JavaScript quirk where a string key such as `__proto__` or `toString` collides with an object prototype key. This affects the event bus's dictionary and also MealCounter.TypeCounts: `types[type] || 0` on `{}` reads an inherited member for such a meal type, so the count for it differs from the model's.
- MealCounter.MealTypes: `Object.entries` lists keys that are array indices (a meal type such as "0") first, in ascending numeric order. The model keeps every key in insertion order.
- Gateway.Table.All: the full-read queries behind `getAllMeals`, `getAllWater` and `getAllWeights` are not in the repository. The model assumes they return the rows in insertion order.

## Findings

| source | as written | input that shows it | evidently intended | confidence | as-written member | corrected member |
|---|---|---|---|---|---|---|
| src/components/notes/NotesPage.tsx:165-171 | after deleting the selected folder, the selection becomes `folders[0]?.id` of the list from before the deletion | folders `folder-1`, `folder-2` with `folder-1` selected; `deleteFolder("folder-1")` leaves `folder-1`, which no longer exists, selected | the first folder that remains, or no selection when none remains | not executed | FolderNotes.DeletedFirstFolderStaysSelected | FolderNotes.SelectionAfterDelete |
