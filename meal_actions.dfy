/**
 * The meal actions of src/store/actions/mealActions.ts: validate first, then
 * write through the gateway, re-read the whole table and replace the
 * snapshot's `meals` with it. A gateway failure is logged and rethrown; it
 * happens before `setAppState`, so the snapshot is untouched. Toasts are not
 * modelled.
 */
module MealActions {
  import opened Wrappers
  import opened Lists
  import opened Runtime
  import opened AppData
  import opened Validation
  import opened ErrorLogging
  import opened Gateway
  import opened AppStore

  const AddFailed: string := "Ошибка при добавлении приёма пищи"
  const UpdateFailed: string := "Ошибка при обновлении приёма пищи"
  const DeleteFailed: string := "Ошибка при удалении приёма пищи"

  /**
   * The tail that the three actions share: `getAllMeals()` then
   * `setAppState({ meals })`; a failing read is logged under `message`
   * and rethrown before the snapshot is touched.
   */
  method Reload(store: Store, log: ErrorLog, message: string, reloadFails: bool, now: string, logFails: bool)
    returns (r: Result<(), Failure>)
    requires store.Valid()
    modifies store, store.bus.trace, log
    ensures store.Valid() && store.listeners == old(store.listeners) && store.initialized == old(store.initialized)
    ensures !reloadFails ==>
      && r == Success(())
      && store.state == old(store.state).(meals := store.db.meals.rows)
      && store.bus.trace.calls == old(store.bus.trace.calls) + store.Notification()
      && unchanged(log)
    ensures reloadFails ==>
      && r == Failure(DatabaseFailure)
      && store.state == old(store.state) && store.bus.trace.calls == old(store.bus.trace.calls)
      && log.logs == KeepNewest(old(log.LoadedLogs()) + [FailureEntry(now, message, DatabaseFailure)], MaxEntries)
  {
    var all := store.db.meals.All(reloadFails);
    if all.Failure? {
      log.LogError(message, Some(Thrown(all.error)), now, logFails);
      return Failure(all.error);
    }
    store.SetAppState(NoStateChange.(meals := Some(all.value)));
    return Success(());
  }

  /** The write step of `addMeal`: the insert, whose failure is logged. */
  method Insert(store: Store, log: ErrorLog, x: MealEntry, writeFails: bool, now: string, logFails: bool)
    returns (r: Result<int, Failure>)
    requires store.Valid()
    modifies store.db.meals, log
    ensures store.Valid()
    ensures !writeFails ==>
      && r == Success(old(store.db.meals.nextId))
      && !HasKey(old(store.db.meals.rows), MealKey, r.value)
      && store.db.meals.rows == old(store.db.meals.rows) + [x.(id := r.value)]
      && unchanged(log)
    ensures writeFails ==>
      && r == Failure(DatabaseFailure) && store.db.meals.rows == old(store.db.meals.rows)
      && log.logs == KeepNewest(old(log.LoadedLogs()) + [FailureEntry(now, AddFailed, DatabaseFailure)], MaxEntries)
  {
    r := store.db.InsertMeal(x, writeFails);
    if r.Failure? {
      log.LogError(AddFailed, Some(Thrown(r.error)), now, logFails);
    }
  }

  /**
   * `addMeal`: an invalid record returns `null` and touches nothing. A valid
   * one is inserted with a placeholder id, the table is re-read into
   * `meals`, and the record is returned with the id the table assigned.
   */
  method AddMeal(store: Store, log: ErrorLog, x: MealEntry, writeFails: bool, reloadFails: bool, now: string, logFails: bool)
    returns (r: Result<Option<MealEntry>, Failure>)
    requires store.Valid()
    modifies store, store.db.meals, store.bus.trace, log
    ensures store.Valid() && store.listeners == old(store.listeners) && store.initialized == old(store.initialized)
    ensures !ValidateMeal(x).valid ==>
      && r == Success(None) && store.state == old(store.state) && store.db.meals.rows == old(store.db.meals.rows)
      && store.bus.trace.calls == old(store.bus.trace.calls) && unchanged(log)
    ensures ValidateMeal(x).valid && !writeFails ==>
      && store.db.meals.rows == old(store.db.meals.rows) + [x.(id := old(store.db.meals.nextId))]
      && !HasKey(old(store.db.meals.rows), MealKey, old(store.db.meals.nextId))
    ensures ValidateMeal(x).valid && writeFails ==> store.db.meals.rows == old(store.db.meals.rows)
    ensures ValidateMeal(x).valid && !writeFails && !reloadFails ==>
      && r == Success(Some(x.(id := old(store.db.meals.nextId))))
      && store.state == old(store.state).(meals := store.db.meals.rows)
      && store.bus.trace.calls == old(store.bus.trace.calls) + store.Notification()
      && unchanged(log)
    ensures ValidateMeal(x).valid && (writeFails || reloadFails) ==>
      && r == Failure(DatabaseFailure)
      && store.state == old(store.state) && store.bus.trace.calls == old(store.bus.trace.calls)
      && log.logs == KeepNewest(old(log.LoadedLogs()) + [FailureEntry(now, AddFailed, DatabaseFailure)], MaxEntries)
  {
    if !ValidateMeal(x).valid {
      return Success(None);
    }
    var id := Insert(store, log, x, writeFails, now, logFails);
    if id.Failure? {
      return Failure(id.error);
    }
    var added := x.(id := id.value);
    var reloaded := Reload(store, log, AddFailed, reloadFails, now, logFails);
    if reloaded.Failure? {
      return Failure(reloaded.error);
    }
    return Success(Some(added));
  }

  /** The write step of `updateMeal`: the update, whose failure is logged. */
  method ReplaceRow(store: Store, log: ErrorLog, x: MealEntry, writeFails: bool, now: string, logFails: bool)
    returns (r: Result<(), Failure>)
    requires store.Valid()
    modifies store.db.meals, log
    ensures store.Valid()
    ensures store.db.meals.rows == if writeFails then old(store.db.meals.rows) else ReplaceByKey(old(store.db.meals.rows), MealKey, x)
    ensures !writeFails ==> r == Success(()) && unchanged(log)
    ensures writeFails ==>
      && r == Failure(DatabaseFailure)
      && log.logs == KeepNewest(old(log.LoadedLogs()) + [FailureEntry(now, UpdateFailed, DatabaseFailure)], MaxEntries)
  {
    r := store.db.meals.Replace(x, writeFails);
    if r.Failure? {
      log.LogError(UpdateFailed, Some(Thrown(r.error)), now, logFails);
    }
  }

  /** The write step of `deleteMeal`: the delete, whose failure is logged. */
  method RemoveRow(store: Store, log: ErrorLog, id: int, writeFails: bool, now: string, logFails: bool)
    returns (r: Result<(), Failure>)
    requires store.Valid()
    modifies store.db.meals, log
    ensures store.Valid()
    ensures store.db.meals.rows == if writeFails then old(store.db.meals.rows) else RemoveByKey(old(store.db.meals.rows), MealKey, id)
    ensures !writeFails ==> r == Success(()) && unchanged(log)
    ensures writeFails ==>
      && r == Failure(DatabaseFailure)
      && log.logs == KeepNewest(old(log.LoadedLogs()) + [FailureEntry(now, DeleteFailed, DatabaseFailure)], MaxEntries)
  {
    r := store.db.meals.Remove(id, writeFails);
    if r.Failure? {
      log.LogError(DeleteFailed, Some(Thrown(r.error)), now, logFails);
    }
  }

  /**
   * `updateMeal`: an invalid record returns before the gateway is called. A valid
   * one replaces the row with its id, and the table is re-read into `meals`.
   */
  method UpdateMeal(store: Store, log: ErrorLog, x: MealEntry, writeFails: bool, reloadFails: bool, now: string, logFails: bool)
    returns (r: Result<(), Failure>)
    requires store.Valid()
    modifies store, store.db.meals, store.bus.trace, log
    ensures store.Valid() && store.listeners == old(store.listeners) && store.initialized == old(store.initialized)
    ensures !ValidateMeal(x).valid ==>
      && r == Success(()) && store.state == old(store.state) && store.db.meals.rows == old(store.db.meals.rows)
      && store.bus.trace.calls == old(store.bus.trace.calls) && unchanged(log)
    ensures ValidateMeal(x).valid ==>
      store.db.meals.rows == if writeFails then old(store.db.meals.rows) else ReplaceByKey(old(store.db.meals.rows), MealKey, x)
    ensures ValidateMeal(x).valid && !writeFails && !reloadFails ==>
      && r == Success(())
      && store.state == old(store.state).(meals := store.db.meals.rows)
      && store.bus.trace.calls == old(store.bus.trace.calls) + store.Notification()
      && unchanged(log)
    ensures ValidateMeal(x).valid && (writeFails || reloadFails) ==>
      && r == Failure(DatabaseFailure)
      && store.state == old(store.state) && store.bus.trace.calls == old(store.bus.trace.calls)
      && log.logs == KeepNewest(old(log.LoadedLogs()) + [FailureEntry(now, UpdateFailed, DatabaseFailure)], MaxEntries)
  {
    if !ValidateMeal(x).valid {
      return Success(());
    }
    var written := ReplaceRow(store, log, x, writeFails, now, logFails);
    if written.Failure? {
      return Failure(written.error);
    }
    var reloaded := Reload(store, log, UpdateFailed, reloadFails, now, logFails);
    if reloaded.Failure? {
      return Failure(reloaded.error);
    }
    return Success(());
  }

  /** `deleteMeal`: no validation; removes the row with that id, and the table is re-read into `meals`. */
  method DeleteMeal(store: Store, log: ErrorLog, id: int, writeFails: bool, reloadFails: bool, now: string, logFails: bool)
    returns (r: Result<(), Failure>)
    requires store.Valid()
    modifies store, store.db.meals, store.bus.trace, log
    ensures store.Valid() && store.listeners == old(store.listeners) && store.initialized == old(store.initialized)
    ensures store.db.meals.rows == if writeFails then old(store.db.meals.rows) else RemoveByKey(old(store.db.meals.rows), MealKey, id)
    ensures !writeFails && !reloadFails ==>
      && r == Success(())
      && store.state == old(store.state).(meals := store.db.meals.rows)
      && store.bus.trace.calls == old(store.bus.trace.calls) + store.Notification()
      && unchanged(log)
    ensures writeFails || reloadFails ==>
      && r == Failure(DatabaseFailure)
      && store.state == old(store.state) && store.bus.trace.calls == old(store.bus.trace.calls)
      && log.logs == KeepNewest(old(log.LoadedLogs()) + [FailureEntry(now, DeleteFailed, DatabaseFailure)], MaxEntries)
  {
    var written := RemoveRow(store, log, id, writeFails, now, logFails);
    if written.Failure? {
      return Failure(written.error);
    }
    var reloaded := Reload(store, log, DeleteFailed, reloadFails, now, logFails);
    if reloaded.Failure? {
      return Failure(reloaded.error);
    }
    return Success(());
  }
}
