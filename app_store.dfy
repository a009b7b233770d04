/**
 * The snapshot store of src/store/useAppStore.ts. The module-level `appState`,
 * `listeners` and `initialized` become the fields of one `Store` object; the
 * database and the event bus it talks to are objects it holds. A listener call
 * and every event-bus callback are recorded as invocations in the bus's trace.
 */
module AppStore {
  import opened Wrappers
  import opened Lists
  import opened Runtime
  import opened AppData
  import opened Events
  import opened Gateway

  /** The event that `notifyState` emits. */
  const StateEvent: string := "appStateChange"

  /** The step of `initializeAppState` that throws, if any. */
  datatype InitFault =
    | NoFault
    | SetupFails          // `setupDatabase`
    | PhotoDirFails       // `initPhotoDirectory`
    | MealsLoadFails      // `getAllMeals`
    | WaterLoadFails      // `getAllWater`
    | WeightsLoadFails    // `getAllWeights`
    | SettingsLoadFails   // `getSettings`
    | SettingsSaveFails   // `saveSettings` of the defaults

  class Store {
    /** `appState` */
    var state: AppState
    /** `listeners` */
    var listeners: seq<Callback>
    /** `initialized` */
    var initialized: bool
    const db: Database
    const bus: EventBus<AppState>

    constructor (db: Database, bus: EventBus<AppState>)
      ensures this.db == db && this.bus == bus
      ensures state == InitialState && listeners == [] && !initialized
    {
      this.db := db;
      this.bus := bus;
      state := InitialState;
      listeners := [];
      initialized := false;
    }

    ghost predicate Valid()
      reads this, db, db.meals, db.water, db.weights
    {
      db.Valid()
    }

    /** What one `notifyState` does: every listener in registration order with no arguments, then one `appStateChange` with the snapshot. */
    function Notification(): seq<Invocation<AppState>>
      reads this, bus
    {
      Invocations(listeners, []) + Invocations(bus.ListenersOf(StateEvent), [state])
    }

    /** The snapshot that a complete initialization loads: the three tables, and the stored settings if any, else the current ones. */
    function Loaded(): AppState
      reads this, db, db.meals, db.water, db.weights
    {
      AppState(db.meals.rows, db.water.rows, db.settings.GetOr(state.settings), db.weights.rows)
    }

    /** `subscribe`: appends the callback. */
    method Subscribe(cb: Callback)
      modifies this
      ensures listeners == old(listeners) + [cb]
      ensures state == old(state) && initialized == old(initialized)
    {
      listeners := listeners + [cb];
    }

    /** The function that `subscribe` returns: removes every occurrence of the callback and keeps the others in order. */
    method Unsubscribe(cb: Callback)
      modifies this
      ensures listeners == Without(old(listeners), cb)
      ensures state == old(state) && initialized == old(initialized)
    {
      listeners := Without(listeners, cb);
    }

    /** `notifyState` */
    method Notify()
      modifies bus.trace
      ensures bus.trace.calls == old(bus.trace.calls) + Notification()
    {
      for i := 0 to |listeners|
        invariant bus.trace.calls == old(bus.trace.calls) + Invocations(listeners[..i], [])
      {
        assert listeners[..i + 1][..i] == listeners[..i];
        bus.trace.Invoke(listeners[i], []);
      }
      assert listeners[..|listeners|] == listeners;
      bus.Emit(StateEvent, [state]);
    }

    /** Whether the loading steps of `initializeAppState` throw; the final save of the defaults is not one of them. */
    static predicate LoadFails(fault: InitFault) {
      !(fault.NoFault? || fault.SettingsSaveFails?)
    }

    /**
     * The setup steps and the three `getAll*` reads of `initializeAppState`:
     * the three tables, or `None` when one of these steps throws.
     */
    method ReadTables(fault: InitFault) returns (r: Option<(seq<MealEntry>, seq<WaterEntry>, seq<WeightMetric>)>)
      ensures r.None? <==> (|| fault.SetupFails? || fault.PhotoDirFails?
                            || fault.MealsLoadFails? || fault.WaterLoadFails? || fault.WeightsLoadFails?)
      ensures r.Some? ==> r.value == (db.meals.rows, db.water.rows, db.weights.rows)
    {
      if fault == SetupFails || fault == PhotoDirFails {
        return None;
      }
      var meals := db.meals.All(fault == MealsLoadFails);
      if meals.Failure? {
        return None;
      }
      var water := db.water.All(fault == WaterLoadFails);
      if water.Failure? {
        return None;
      }
      var weights := db.weights.All(fault == WeightsLoadFails);
      if weights.Failure? {
        return None;
      }
      return Some((meals.value, water.value, weights.value));
    }

    /**
     * The steps of `initializeAppState` inside its `try`, up to the flag:
     * loads the tables and the settings and, when no settings are stored,
     * saves the current ones. A failing load changes nothing; a failure of
     * the final save comes after the lists were assigned, so they stay.
     */
    method Load(fault: InitFault) returns (ok: bool)
      requires Valid()
      modifies this, db
      ensures Valid() && listeners == old(listeners) && initialized == old(initialized)
      ensures ok <==> !LoadFails(fault) && (fault == NoFault || old(db.settings).Some?)
      ensures LoadFails(fault) ==> state == old(state) && db.settings == old(db.settings)
      ensures !LoadFails(fault) ==> state == old(Loaded())
      ensures !LoadFails(fault) ==>
        db.settings == (if fault == NoFault && old(db.settings).None? then Some(old(state.settings)) else old(db.settings))
    {
      var tables := ReadTables(fault);
      if tables.None? {
        return false;
      }
      var settings := db.GetSettings(fault == SettingsLoadFails);
      if settings.Failure? {
        return false;
      }
      var (meals, water, weights) := tables.value;
      state := state.(meals := meals, water := water, weights := weights);
      if settings.value.Some? {
        state := state.(settings := settings.value.value);
      } else {
        var saved := db.SaveSettings(state.settings, fault == SettingsSaveFails);
        if saved.Failure? {
          return false;
        }
      }
      return true;
    }

    /**
     * `initializeAppState`: once initialized, returns the snapshot untouched.
     * Otherwise it loads; on success it sets `initialized` and notifies once,
     * and a failing step is swallowed, leaves `initialized` false and
     * notifies nothing.
     */
    method InitializeAppState(fault: InitFault) returns (r: AppState)
      requires Valid()
      modifies this, db, bus.trace
      ensures Valid() && r == state && listeners == old(listeners)
      ensures old(initialized) ==>
        && state == old(state) && initialized
        && db.settings == old(db.settings) && bus.trace.calls == old(bus.trace.calls)
      ensures !old(initialized) && LoadFails(fault) ==>
        && state == old(state) && !initialized
        && db.settings == old(db.settings) && bus.trace.calls == old(bus.trace.calls)
      ensures !old(initialized) && !LoadFails(fault) ==>
        && state == old(Loaded())
        && db.settings == (if fault == NoFault && old(db.settings).None? then Some(old(state.settings)) else old(db.settings))
        && initialized == (fault == NoFault || old(db.settings).Some?)
        && bus.trace.calls == old(bus.trace.calls) + (if initialized then Notification() else [])
    {
      if initialized {
        return state;
      }
      var ok := Load(fault);
      if ok {
        initialized := true;
        Notify();
      }
      return state;
    }

    /** `appActions.addMeal`: inserts, then prepends the record under the database's id and notifies; a failure is rethrown with nothing changed. */
    method AddMeal(m: MealEntry, fails: bool) returns (r: Result<MealEntry, Failure>)
      requires Valid()
      modifies this, db.meals, bus.trace
      ensures Valid() && listeners == old(listeners) && initialized == old(initialized)
      ensures fails ==>
        && r == Failure(DatabaseFailure) && state == old(state)
        && db.meals.rows == old(db.meals.rows) && bus.trace.calls == old(bus.trace.calls)
      ensures !fails ==> && r.Success? && r.value == m.(id := r.value.id)
                         && !HasKey(old(db.meals.rows), MealKey, r.value.id)
                         && db.meals.rows == old(db.meals.rows) + [r.value]
                         && state == old(state).(meals := [r.value] + old(state.meals))
                         && bus.trace.calls == old(bus.trace.calls) + Notification()
    {
      var id := db.InsertMeal(m, fails);
      if id.Failure? {
        return Failure(id.error);
      }
      var newMeal := m.(id := id.value);
      state := state.(meals := [newMeal] + state.meals);
      Notify();
      return Success(newMeal);
    }

    /** `appActions.updateMeal`: updates the row, then replaces every record with that id and notifies. */
    method UpdateMeal(m: MealEntry, fails: bool) returns (r: Result<(), Failure>)
      requires Valid()
      modifies this, db.meals, bus.trace
      ensures Valid() && listeners == old(listeners) && initialized == old(initialized)
      ensures fails ==>
        && r == Failure(DatabaseFailure) && state == old(state)
        && db.meals.rows == old(db.meals.rows) && bus.trace.calls == old(bus.trace.calls)
      ensures !fails ==> && r == Success(())
                         && db.meals.rows == ReplaceByKey(old(db.meals.rows), MealKey, m)
                         && state == old(state).(meals := ReplaceByKey(old(state.meals), MealKey, m))
                         && bus.trace.calls == old(bus.trace.calls) + Notification()
    {
      r := db.meals.Replace(m, fails);
      if r.Failure? {
        return;
      }
      state := state.(meals := ReplaceByKey(state.meals, MealKey, m));
      Notify();
    }

    /** `appActions.deleteMeal`: deletes the row, then drops every record with that id and notifies. */
    method DeleteMeal(id: int, fails: bool) returns (r: Result<(), Failure>)
      requires Valid()
      modifies this, db.meals, bus.trace
      ensures Valid() && listeners == old(listeners) && initialized == old(initialized)
      ensures fails ==>
        && r == Failure(DatabaseFailure) && state == old(state)
        && db.meals.rows == old(db.meals.rows) && bus.trace.calls == old(bus.trace.calls)
      ensures !fails ==> && r == Success(())
                         && db.meals.rows == RemoveByKey(old(db.meals.rows), MealKey, id)
                         && state == old(state).(meals := RemoveByKey(old(state.meals), MealKey, id))
                         && bus.trace.calls == old(bus.trace.calls) + Notification()
    {
      r := db.meals.Remove(id, fails);
      if r.Failure? {
        return;
      }
      state := state.(meals := RemoveByKey(state.meals, MealKey, id));
      Notify();
    }

    /** `appActions.addWater` */
    method AddWater(w: WaterEntry, fails: bool) returns (r: Result<WaterEntry, Failure>)
      requires Valid()
      modifies this, db.water, bus.trace
      ensures Valid() && listeners == old(listeners) && initialized == old(initialized)
      ensures fails ==>
        && r == Failure(DatabaseFailure) && state == old(state)
        && db.water.rows == old(db.water.rows) && bus.trace.calls == old(bus.trace.calls)
      ensures !fails ==> && r.Success? && r.value == w.(id := r.value.id)
                         && !HasKey(old(db.water.rows), WaterKey, r.value.id)
                         && db.water.rows == old(db.water.rows) + [r.value]
                         && state == old(state).(water := [r.value] + old(state.water))
                         && bus.trace.calls == old(bus.trace.calls) + Notification()
    {
      var id := db.InsertWater(w, fails);
      if id.Failure? {
        return Failure(id.error);
      }
      var newWater := w.(id := id.value);
      state := state.(water := [newWater] + state.water);
      Notify();
      return Success(newWater);
    }

    /** `appActions.updateWater` */
    method UpdateWater(w: WaterEntry, fails: bool) returns (r: Result<(), Failure>)
      requires Valid()
      modifies this, db.water, bus.trace
      ensures Valid() && listeners == old(listeners) && initialized == old(initialized)
      ensures fails ==>
        && r == Failure(DatabaseFailure) && state == old(state)
        && db.water.rows == old(db.water.rows) && bus.trace.calls == old(bus.trace.calls)
      ensures !fails ==> && r == Success(())
                         && db.water.rows == ReplaceByKey(old(db.water.rows), WaterKey, w)
                         && state == old(state).(water := ReplaceByKey(old(state.water), WaterKey, w))
                         && bus.trace.calls == old(bus.trace.calls) + Notification()
    {
      r := db.water.Replace(w, fails);
      if r.Failure? {
        return;
      }
      state := state.(water := ReplaceByKey(state.water, WaterKey, w));
      Notify();
    }

    /** `appActions.deleteWater` */
    method DeleteWater(id: int, fails: bool) returns (r: Result<(), Failure>)
      requires Valid()
      modifies this, db.water, bus.trace
      ensures Valid() && listeners == old(listeners) && initialized == old(initialized)
      ensures fails ==>
        && r == Failure(DatabaseFailure) && state == old(state)
        && db.water.rows == old(db.water.rows) && bus.trace.calls == old(bus.trace.calls)
      ensures !fails ==> && r == Success(())
                         && db.water.rows == RemoveByKey(old(db.water.rows), WaterKey, id)
                         && state == old(state).(water := RemoveByKey(old(state.water), WaterKey, id))
                         && bus.trace.calls == old(bus.trace.calls) + Notification()
    {
      r := db.water.Remove(id, fails);
      if r.Failure? {
        return;
      }
      state := state.(water := RemoveByKey(state.water, WaterKey, id));
      Notify();
    }

    /** `appActions.addWeight` */
    method AddWeight(w: WeightMetric, fails: bool) returns (r: Result<WeightMetric, Failure>)
      requires Valid()
      modifies this, db.weights, bus.trace
      ensures Valid() && listeners == old(listeners) && initialized == old(initialized)
      ensures fails ==>
        && r == Failure(DatabaseFailure) && state == old(state)
        && db.weights.rows == old(db.weights.rows) && bus.trace.calls == old(bus.trace.calls)
      ensures !fails ==> && r.Success? && r.value == w.(id := r.value.id)
                         && !HasKey(old(db.weights.rows), WeightKey, r.value.id)
                         && db.weights.rows == old(db.weights.rows) + [r.value]
                         && state == old(state).(weights := [r.value] + old(state.weights))
                         && bus.trace.calls == old(bus.trace.calls) + Notification()
    {
      var id := db.InsertWeight(w, fails);
      if id.Failure? {
        return Failure(id.error);
      }
      var newWeight := w.(id := id.value);
      state := state.(weights := [newWeight] + state.weights);
      Notify();
      return Success(newWeight);
    }

    /** `appActions.updateWeight` */
    method UpdateWeight(w: WeightMetric, fails: bool) returns (r: Result<(), Failure>)
      requires Valid()
      modifies this, db.weights, bus.trace
      ensures Valid() && listeners == old(listeners) && initialized == old(initialized)
      ensures fails ==>
        && r == Failure(DatabaseFailure) && state == old(state)
        && db.weights.rows == old(db.weights.rows) && bus.trace.calls == old(bus.trace.calls)
      ensures !fails ==> && r == Success(())
                         && db.weights.rows == ReplaceByKey(old(db.weights.rows), WeightKey, w)
                         && state == old(state).(weights := ReplaceByKey(old(state.weights), WeightKey, w))
                         && bus.trace.calls == old(bus.trace.calls) + Notification()
    {
      r := db.weights.Replace(w, fails);
      if r.Failure? {
        return;
      }
      state := state.(weights := ReplaceByKey(state.weights, WeightKey, w));
      Notify();
    }

    /** `appActions.deleteWeight` */
    method DeleteWeight(id: int, fails: bool) returns (r: Result<(), Failure>)
      requires Valid()
      modifies this, db.weights, bus.trace
      ensures Valid() && listeners == old(listeners) && initialized == old(initialized)
      ensures fails ==>
        && r == Failure(DatabaseFailure) && state == old(state)
        && db.weights.rows == old(db.weights.rows) && bus.trace.calls == old(bus.trace.calls)
      ensures !fails ==> && r == Success(())
                         && db.weights.rows == RemoveByKey(old(db.weights.rows), WeightKey, id)
                         && state == old(state).(weights := RemoveByKey(old(state.weights), WeightKey, id))
                         && bus.trace.calls == old(bus.trace.calls) + Notification()
    {
      r := db.weights.Remove(id, fails);
      if r.Failure? {
        return;
      }
      state := state.(weights := RemoveByKey(state.weights, WeightKey, id));
      Notify();
    }

    /** `appActions.updateSettings`: merges the partial into the current settings, saves, and only then replaces the snapshot's settings and notifies. */
    method UpdateSettings(patch: SettingsPatch, fails: bool) returns (r: Result<(), Failure>)
      modifies this, db, bus.trace
      ensures listeners == old(listeners) && initialized == old(initialized)
      ensures fails ==>
        && r == Failure(DatabaseFailure) && state == old(state)
        && db.settings == old(db.settings) && bus.trace.calls == old(bus.trace.calls)
      ensures !fails ==> && r == Success(())
                         && db.settings == Some(MergeSettings(old(state.settings), patch))
                         && state == old(state).(settings := MergeSettings(old(state.settings), patch))
                         && bus.trace.calls == old(bus.trace.calls) + Notification()
    {
      var newSettings := MergeSettings(state.settings, patch);
      r := db.SaveSettings(newSettings, fails);
      if r.Failure? {
        return;
      }
      state := state.(settings := newSettings);
      Notify();
    }

    /** `setAppState`: replaces the fields the partial carries, then notifies. */
    method SetAppState(patch: StatePatch)
      modifies this, bus.trace
      ensures state == ApplyStatePatch(old(state), patch)
      ensures listeners == old(listeners) && initialized == old(initialized)
      ensures bus.trace.calls == old(bus.trace.calls) + Notification()
    {
      state := ApplyStatePatch(state, patch);
      Notify();
    }
  }
}
