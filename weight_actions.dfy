/**
 * The weight actions of src/store/actions/weightActions.ts: validate first, then
 * write through the gateway, re-read the whole table and replace the
 * snapshot's `weights` with it. A gateway failure is logged and rethrown; it
 * happens before `setAppState`, so the snapshot is untouched. Toasts are not
 * modelled.
 */
module WeightActions {
  import opened Wrappers
  import opened Lists
  import opened Runtime
  import opened AppData
  import opened Validation
  import opened ErrorLogging
  import opened Gateway
  import opened AppStore

  const AddFailed: string := "Ошибка при добавлении веса"
  const UpdateFailed: string := "Ошибка при обновлении веса"
  const DeleteFailed: string := "Ошибка при удалении веса"

  /**
   * The tail that the three actions share: `getAllWeights()` then
   * `setAppState({ weights })`; a failing read is logged under `message`
   * and rethrown before the snapshot is touched.
   */
  method Reload(store: Store, log: ErrorLog, message: string, reloadFails: bool, now: string, logFails: bool)
    returns (r: Result<(), Failure>)
    requires store.Valid()
    modifies store, store.bus.trace, log
    ensures store.Valid() && store.listeners == old(store.listeners) && store.initialized == old(store.initialized)
    ensures !reloadFails ==>
      && r == Success(())
      && store.state == old(store.state).(weights := store.db.weights.rows)
      && store.bus.trace.calls == old(store.bus.trace.calls) + store.Notification()
      && unchanged(log)
    ensures reloadFails ==>
      && r == Failure(DatabaseFailure)
      && store.state == old(store.state) && store.bus.trace.calls == old(store.bus.trace.calls)
      && log.logs == KeepNewest(old(log.LoadedLogs()) + [FailureEntry(now, message, DatabaseFailure)], MaxEntries)
  {
    var all := store.db.weights.All(reloadFails);
    if all.Failure? {
      log.LogError(message, Some(Thrown(all.error)), now, logFails);
      return Failure(all.error);
    }
    store.SetAppState(NoStateChange.(weights := Some(all.value)));
    return Success(());
  }

  /** The write step of `addWeight`: the insert, whose failure is logged. */
  method Insert(store: Store, log: ErrorLog, x: WeightMetric, writeFails: bool, now: string, logFails: bool)
    returns (r: Result<int, Failure>)
    requires store.Valid()
    modifies store.db.weights, log
    ensures store.Valid()
    ensures !writeFails ==>
      && r == Success(old(store.db.weights.nextId))
      && !HasKey(old(store.db.weights.rows), WeightKey, r.value)
      && store.db.weights.rows == old(store.db.weights.rows) + [x.(id := r.value)]
      && unchanged(log)
    ensures writeFails ==>
      && r == Failure(DatabaseFailure) && store.db.weights.rows == old(store.db.weights.rows)
      && log.logs == KeepNewest(old(log.LoadedLogs()) + [FailureEntry(now, AddFailed, DatabaseFailure)], MaxEntries)
  {
    r := store.db.InsertWeight(x, writeFails);
    if r.Failure? {
      log.LogError(AddFailed, Some(Thrown(r.error)), now, logFails);
    }
  }

  /**
   * `addWeight`: an invalid record returns `null` and touches nothing. A valid
   * one is inserted with a placeholder id, the table is re-read into
   * `weights`, and the record is returned with the id the table assigned.
   */
  method AddWeight(store: Store, log: ErrorLog, x: WeightMetric, writeFails: bool, reloadFails: bool, now: string, logFails: bool)
    returns (r: Result<Option<WeightMetric>, Failure>)
    requires store.Valid()
    modifies store, store.db.weights, store.bus.trace, log
    ensures store.Valid() && store.listeners == old(store.listeners) && store.initialized == old(store.initialized)
    ensures !ValidateWeight(x).valid ==>
      && r == Success(None) && store.state == old(store.state) && store.db.weights.rows == old(store.db.weights.rows)
      && store.bus.trace.calls == old(store.bus.trace.calls) && unchanged(log)
    ensures ValidateWeight(x).valid && !writeFails ==>
      && store.db.weights.rows == old(store.db.weights.rows) + [x.(id := old(store.db.weights.nextId))]
      && !HasKey(old(store.db.weights.rows), WeightKey, old(store.db.weights.nextId))
    ensures ValidateWeight(x).valid && writeFails ==> store.db.weights.rows == old(store.db.weights.rows)
    ensures ValidateWeight(x).valid && !writeFails && !reloadFails ==>
      && r == Success(Some(x.(id := old(store.db.weights.nextId))))
      && store.state == old(store.state).(weights := store.db.weights.rows)
      && store.bus.trace.calls == old(store.bus.trace.calls) + store.Notification()
      && unchanged(log)
    ensures ValidateWeight(x).valid && (writeFails || reloadFails) ==>
      && r == Failure(DatabaseFailure)
      && store.state == old(store.state) && store.bus.trace.calls == old(store.bus.trace.calls)
      && log.logs == KeepNewest(old(log.LoadedLogs()) + [FailureEntry(now, AddFailed, DatabaseFailure)], MaxEntries)
  {
    if !ValidateWeight(x).valid {
      return Success(None);
    }
    var id := Insert(store, log, x, writeFails, now, logFails);
    if id.Failure? {
      return Failure(id.error);
    }
    var added := x.(id := id.value);
    var reloaded := Reload(store, log, AddFailed, reloadFails, now, logFails);
    if reloaded.Failure? {
      return Failure(reloaded.error);
    }
    return Success(Some(added));
  }

  /** The write step of `updateWeight`: the update, whose failure is logged. */
  method ReplaceRow(store: Store, log: ErrorLog, x: WeightMetric, writeFails: bool, now: string, logFails: bool)
    returns (r: Result<(), Failure>)
    requires store.Valid()
    modifies store.db.weights, log
    ensures store.Valid()
    ensures store.db.weights.rows == if writeFails then old(store.db.weights.rows) else ReplaceByKey(old(store.db.weights.rows), WeightKey, x)
    ensures !writeFails ==> r == Success(()) && unchanged(log)
    ensures writeFails ==>
      && r == Failure(DatabaseFailure)
      && log.logs == KeepNewest(old(log.LoadedLogs()) + [FailureEntry(now, UpdateFailed, DatabaseFailure)], MaxEntries)
  {
    r := store.db.weights.Replace(x, writeFails);
    if r.Failure? {
      log.LogError(UpdateFailed, Some(Thrown(r.error)), now, logFails);
    }
  }

  /** The write step of `deleteWeight`: the delete, whose failure is logged. */
  method RemoveRow(store: Store, log: ErrorLog, id: int, writeFails: bool, now: string, logFails: bool)
    returns (r: Result<(), Failure>)
    requires store.Valid()
    modifies store.db.weights, log
    ensures store.Valid()
    ensures store.db.weights.rows == if writeFails then old(store.db.weights.rows) else RemoveByKey(old(store.db.weights.rows), WeightKey, id)
    ensures !writeFails ==> r == Success(()) && unchanged(log)
    ensures writeFails ==>
      && r == Failure(DatabaseFailure)
      && log.logs == KeepNewest(old(log.LoadedLogs()) + [FailureEntry(now, DeleteFailed, DatabaseFailure)], MaxEntries)
  {
    r := store.db.weights.Remove(id, writeFails);
    if r.Failure? {
      log.LogError(DeleteFailed, Some(Thrown(r.error)), now, logFails);
    }
  }

  /**
   * `updateWeight`: an invalid record returns before the gateway is called. A valid
   * one replaces the row with its id, and the table is re-read into `weights`.
   */
  method UpdateWeight(store: Store, log: ErrorLog, x: WeightMetric, writeFails: bool, reloadFails: bool, now: string, logFails: bool)
    returns (r: Result<(), Failure>)
    requires store.Valid()
    modifies store, store.db.weights, store.bus.trace, log
    ensures store.Valid() && store.listeners == old(store.listeners) && store.initialized == old(store.initialized)
    ensures !ValidateWeight(x).valid ==>
      && r == Success(()) && store.state == old(store.state) && store.db.weights.rows == old(store.db.weights.rows)
      && store.bus.trace.calls == old(store.bus.trace.calls) && unchanged(log)
    ensures ValidateWeight(x).valid ==>
      store.db.weights.rows == if writeFails then old(store.db.weights.rows) else ReplaceByKey(old(store.db.weights.rows), WeightKey, x)
    ensures ValidateWeight(x).valid && !writeFails && !reloadFails ==>
      && r == Success(())
      && store.state == old(store.state).(weights := store.db.weights.rows)
      && store.bus.trace.calls == old(store.bus.trace.calls) + store.Notification()
      && unchanged(log)
    ensures ValidateWeight(x).valid && (writeFails || reloadFails) ==>
      && r == Failure(DatabaseFailure)
      && store.state == old(store.state) && store.bus.trace.calls == old(store.bus.trace.calls)
      && log.logs == KeepNewest(old(log.LoadedLogs()) + [FailureEntry(now, UpdateFailed, DatabaseFailure)], MaxEntries)
  {
    if !ValidateWeight(x).valid {
      return Success(());
    }
    var written := ReplaceRow(store, log, x, writeFails, now, logFails);
    if written.Failure? {
      return Failure(written.error);
    }
    var reloaded := Reload(store, log, UpdateFailed, reloadFails, now, logFails);
    if reloaded.Failure? {
      return Failure(reloaded.error);
    }
    return Success(());
  }

  /** `deleteWeight`: no validation; removes the row with that id, and the table is re-read into `weights`. */
  method DeleteWeight(store: Store, log: ErrorLog, id: int, writeFails: bool, reloadFails: bool, now: string, logFails: bool)
    returns (r: Result<(), Failure>)
    requires store.Valid()
    modifies store, store.db.weights, store.bus.trace, log
    ensures store.Valid() && store.listeners == old(store.listeners) && store.initialized == old(store.initialized)
    ensures store.db.weights.rows == if writeFails then old(store.db.weights.rows) else RemoveByKey(old(store.db.weights.rows), WeightKey, id)
    ensures !writeFails && !reloadFails ==>
      && r == Success(())
      && store.state == old(store.state).(weights := store.db.weights.rows)
      && store.bus.trace.calls == old(store.bus.trace.calls) + store.Notification()
      && unchanged(log)
    ensures writeFails || reloadFails ==>
      && r == Failure(DatabaseFailure)
      && store.state == old(store.state) && store.bus.trace.calls == old(store.bus.trace.calls)
      && log.logs == KeepNewest(old(log.LoadedLogs()) + [FailureEntry(now, DeleteFailed, DatabaseFailure)], MaxEntries)
  {
    var written := RemoveRow(store, log, id, writeFails, now, logFails);
    if written.Failure? {
      return Failure(written.error);
    }
    var reloaded := Reload(store, log, DeleteFailed, reloadFails, now, logFails);
    if reloaded.Failure? {
      return Failure(reloaded.error);
    }
    return Success(());
  }
}
