/**
 * The water actions of src/store/actions/waterActions.ts: validate first, then
 * write through the gateway, re-read the whole table and replace the
 * snapshot's `water` with it. A gateway failure is logged and rethrown; it
 * happens before `setAppState`, so the snapshot is untouched. Toasts are not
 * modelled.
 */
module WaterActions {
  import opened Wrappers
  import opened Lists
  import opened Runtime
  import opened AppData
  import opened Validation
  import opened ErrorLogging
  import opened Gateway
  import opened AppStore

  const AddFailed: string := "Ошибка при добавлении записи о воде"
  const UpdateFailed: string := "Ошибка при обновлении записи о воде"
  const DeleteFailed: string := "Ошибка при удалении записи о воде"

  /**
   * The tail that the three actions share: `getAllWater()` then
   * `setAppState({ water })`; a failing read is logged under `message`
   * and rethrown before the snapshot is touched.
   */
  method Reload(store: Store, log: ErrorLog, message: string, reloadFails: bool, now: string, logFails: bool)
    returns (r: Result<(), Failure>)
    requires store.Valid()
    modifies store, store.bus.trace, log
    ensures store.Valid() && store.listeners == old(store.listeners) && store.initialized == old(store.initialized)
    ensures !reloadFails ==>
      && r == Success(())
      && store.state == old(store.state).(water := store.db.water.rows)
      && store.bus.trace.calls == old(store.bus.trace.calls) + store.Notification()
      && unchanged(log)
    ensures reloadFails ==>
      && r == Failure(DatabaseFailure)
      && store.state == old(store.state) && store.bus.trace.calls == old(store.bus.trace.calls)
      && log.logs == KeepNewest(old(log.LoadedLogs()) + [FailureEntry(now, message, DatabaseFailure)], MaxEntries)
  {
    var all := store.db.water.All(reloadFails);
    if all.Failure? {
      log.LogError(message, Some(Thrown(all.error)), now, logFails);
      return Failure(all.error);
    }
    store.SetAppState(NoStateChange.(water := Some(all.value)));
    return Success(());
  }

  /** The write step of `addWater`: the insert, whose failure is logged. */
  method Insert(store: Store, log: ErrorLog, x: WaterEntry, writeFails: bool, now: string, logFails: bool)
    returns (r: Result<int, Failure>)
    requires store.Valid()
    modifies store.db.water, log
    ensures store.Valid()
    ensures !writeFails ==>
      && r == Success(old(store.db.water.nextId))
      && !HasKey(old(store.db.water.rows), WaterKey, r.value)
      && store.db.water.rows == old(store.db.water.rows) + [x.(id := r.value)]
      && unchanged(log)
    ensures writeFails ==>
      && r == Failure(DatabaseFailure) && store.db.water.rows == old(store.db.water.rows)
      && log.logs == KeepNewest(old(log.LoadedLogs()) + [FailureEntry(now, AddFailed, DatabaseFailure)], MaxEntries)
  {
    r := store.db.InsertWater(x, writeFails);
    if r.Failure? {
      log.LogError(AddFailed, Some(Thrown(r.error)), now, logFails);
    }
  }

  /**
   * `addWater`: an invalid record returns `null` and touches nothing. A valid
   * one is inserted with a placeholder id, the table is re-read into
   * `water`, and the record is returned with the id the table assigned.
   */
  method AddWater(store: Store, log: ErrorLog, x: WaterEntry, writeFails: bool, reloadFails: bool, now: string, logFails: bool)
    returns (r: Result<Option<WaterEntry>, Failure>)
    requires store.Valid()
    modifies store, store.db.water, store.bus.trace, log
    ensures store.Valid() && store.listeners == old(store.listeners) && store.initialized == old(store.initialized)
    ensures !ValidateWater(x).valid ==>
      && r == Success(None) && store.state == old(store.state) && store.db.water.rows == old(store.db.water.rows)
      && store.bus.trace.calls == old(store.bus.trace.calls) && unchanged(log)
    ensures ValidateWater(x).valid && !writeFails ==>
      && store.db.water.rows == old(store.db.water.rows) + [x.(id := old(store.db.water.nextId))]
      && !HasKey(old(store.db.water.rows), WaterKey, old(store.db.water.nextId))
    ensures ValidateWater(x).valid && writeFails ==> store.db.water.rows == old(store.db.water.rows)
    ensures ValidateWater(x).valid && !writeFails && !reloadFails ==>
      && r == Success(Some(x.(id := old(store.db.water.nextId))))
      && store.state == old(store.state).(water := store.db.water.rows)
      && store.bus.trace.calls == old(store.bus.trace.calls) + store.Notification()
      && unchanged(log)
    ensures ValidateWater(x).valid && (writeFails || reloadFails) ==>
      && r == Failure(DatabaseFailure)
      && store.state == old(store.state) && store.bus.trace.calls == old(store.bus.trace.calls)
      && log.logs == KeepNewest(old(log.LoadedLogs()) + [FailureEntry(now, AddFailed, DatabaseFailure)], MaxEntries)
  {
    if !ValidateWater(x).valid {
      return Success(None);
    }
    var id := Insert(store, log, x, writeFails, now, logFails);
    if id.Failure? {
      return Failure(id.error);
    }
    var added := x.(id := id.value);
    var reloaded := Reload(store, log, AddFailed, reloadFails, now, logFails);
    if reloaded.Failure? {
      return Failure(reloaded.error);
    }
    return Success(Some(added));
  }

  /** The write step of `updateWater`: the update, whose failure is logged. */
  method ReplaceRow(store: Store, log: ErrorLog, x: WaterEntry, writeFails: bool, now: string, logFails: bool)
    returns (r: Result<(), Failure>)
    requires store.Valid()
    modifies store.db.water, log
    ensures store.Valid()
    ensures store.db.water.rows == if writeFails then old(store.db.water.rows) else ReplaceByKey(old(store.db.water.rows), WaterKey, x)
    ensures !writeFails ==> r == Success(()) && unchanged(log)
    ensures writeFails ==>
      && r == Failure(DatabaseFailure)
      && log.logs == KeepNewest(old(log.LoadedLogs()) + [FailureEntry(now, UpdateFailed, DatabaseFailure)], MaxEntries)
  {
    r := store.db.water.Replace(x, writeFails);
    if r.Failure? {
      log.LogError(UpdateFailed, Some(Thrown(r.error)), now, logFails);
    }
  }

  /** The write step of `deleteWater`: the delete, whose failure is logged. */
  method RemoveRow(store: Store, log: ErrorLog, id: int, writeFails: bool, now: string, logFails: bool)
    returns (r: Result<(), Failure>)
    requires store.Valid()
    modifies store.db.water, log
    ensures store.Valid()
    ensures store.db.water.rows == if writeFails then old(store.db.water.rows) else RemoveByKey(old(store.db.water.rows), WaterKey, id)
    ensures !writeFails ==> r == Success(()) && unchanged(log)
    ensures writeFails ==>
      && r == Failure(DatabaseFailure)
      && log.logs == KeepNewest(old(log.LoadedLogs()) + [FailureEntry(now, DeleteFailed, DatabaseFailure)], MaxEntries)
  {
    r := store.db.water.Remove(id, writeFails);
    if r.Failure? {
      log.LogError(DeleteFailed, Some(Thrown(r.error)), now, logFails);
    }
  }

  /**
   * `updateWater`: an invalid record returns before the gateway is called. A valid
   * one replaces the row with its id, and the table is re-read into `water`.
   */
  method UpdateWater(store: Store, log: ErrorLog, x: WaterEntry, writeFails: bool, reloadFails: bool, now: string, logFails: bool)
    returns (r: Result<(), Failure>)
    requires store.Valid()
    modifies store, store.db.water, store.bus.trace, log
    ensures store.Valid() && store.listeners == old(store.listeners) && store.initialized == old(store.initialized)
    ensures !ValidateWater(x).valid ==>
      && r == Success(()) && store.state == old(store.state) && store.db.water.rows == old(store.db.water.rows)
      && store.bus.trace.calls == old(store.bus.trace.calls) && unchanged(log)
    ensures ValidateWater(x).valid ==>
      store.db.water.rows == if writeFails then old(store.db.water.rows) else ReplaceByKey(old(store.db.water.rows), WaterKey, x)
    ensures ValidateWater(x).valid && !writeFails && !reloadFails ==>
      && r == Success(())
      && store.state == old(store.state).(water := store.db.water.rows)
      && store.bus.trace.calls == old(store.bus.trace.calls) + store.Notification()
      && unchanged(log)
    ensures ValidateWater(x).valid && (writeFails || reloadFails) ==>
      && r == Failure(DatabaseFailure)
      && store.state == old(store.state) && store.bus.trace.calls == old(store.bus.trace.calls)
      && log.logs == KeepNewest(old(log.LoadedLogs()) + [FailureEntry(now, UpdateFailed, DatabaseFailure)], MaxEntries)
  {
    if !ValidateWater(x).valid {
      return Success(());
    }
    var written := ReplaceRow(store, log, x, writeFails, now, logFails);
    if written.Failure? {
      return Failure(written.error);
    }
    var reloaded := Reload(store, log, UpdateFailed, reloadFails, now, logFails);
    if reloaded.Failure? {
      return Failure(reloaded.error);
    }
    return Success(());
  }

  /** `deleteWater`: no validation; removes the row with that id, and the table is re-read into `water`. */
  method DeleteWater(store: Store, log: ErrorLog, id: int, writeFails: bool, reloadFails: bool, now: string, logFails: bool)
    returns (r: Result<(), Failure>)
    requires store.Valid()
    modifies store, store.db.water, store.bus.trace, log
    ensures store.Valid() && store.listeners == old(store.listeners) && store.initialized == old(store.initialized)
    ensures store.db.water.rows == if writeFails then old(store.db.water.rows) else RemoveByKey(old(store.db.water.rows), WaterKey, id)
    ensures !writeFails && !reloadFails ==>
      && r == Success(())
      && store.state == old(store.state).(water := store.db.water.rows)
      && store.bus.trace.calls == old(store.bus.trace.calls) + store.Notification()
      && unchanged(log)
    ensures writeFails || reloadFails ==>
      && r == Failure(DatabaseFailure)
      && store.state == old(store.state) && store.bus.trace.calls == old(store.bus.trace.calls)
      && log.logs == KeepNewest(old(log.LoadedLogs()) + [FailureEntry(now, DeleteFailed, DatabaseFailure)], MaxEntries)
  {
    var written := RemoveRow(store, log, id, writeFails, now, logFails);
    if written.Failure? {
      return Failure(written.error);
    }
    var reloaded := Reload(store, log, DeleteFailed, reloadFails, now, logFails);
    if reloaded.Failure? {
      return Failure(reloaded.error);
    }
    return Success(());
  }
}
