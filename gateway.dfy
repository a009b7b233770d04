/**
 * The database that the store and the actions call through
 * src/lib/sqliteClient.ts, modelled abstractly: one list of rows per table,
 * a supply of fresh ids per table (the autoincrement key), and an optional
 * settings row. Every call may fail; the caller decides with `fails`.
 * SQL, the connection and the schema are not modelled.
 */
module Gateway {
  import opened Wrappers
  import opened Lists
  import opened Runtime
  import opened AppData

  /** One table: its rows in the order the queries return them, and the next id it hands out. */
  class Table<T> {
    var rows: seq<T>
    var nextId: int
    /** The `id` column. */
    const key: T -> int

    constructor (key: T -> int)
      ensures rows == [] && nextId == 1 && this.key == key
      ensures Valid()
    {
      rows := [];
      nextId := 1;
      this.key := key;
    }

    /** Ids are positive, below the next id to hand out, and distinct. */
    ghost predicate Valid()
      reads this
    {
      && nextId >= 1
      && (forall i :: 0 <= i < |rows| ==> 0 < key(rows[i]) < nextId)
      && DistinctKeys(rows, key)
    }

    /** `INSERT`: appends the row under the next id and returns that id, which no earlier row carries. */
    method Append(row: T, fails: bool) returns (r: Result<int, Failure>)
      requires Valid() && key(row) == nextId
      modifies this
      ensures Valid()
      ensures fails ==> r == Failure(DatabaseFailure) && rows == old(rows) && nextId == old(nextId)
      ensures !fails ==> && r == Success(old(nextId)) && !HasKey(old(rows), key, r.value)
                         && rows == old(rows) + [row] && nextId == old(nextId) + 1
    {
      if fails {
        return Failure(DatabaseFailure);
      }
      r := Success(nextId);
      rows := rows + [row];
      nextId := nextId + 1;
    }

    /** `SELECT *`: every row. */
    method All(fails: bool) returns (r: Result<seq<T>, Failure>)
      ensures r == if fails then Failure(DatabaseFailure) else Success(rows)
    {
      if fails {
        return Failure(DatabaseFailure);
      }
      return Success(rows);
    }

    /** `UPDATE ... WHERE id = ?`: replaces the row with the same id; an unknown id changes nothing. */
    method Replace(row: T, fails: bool) returns (r: Result<(), Failure>)
      requires Valid()
      modifies this
      ensures Valid() && nextId == old(nextId)
      ensures r == if fails then Failure(DatabaseFailure) else Success(())
      ensures rows == if fails then old(rows) else ReplaceByKey(old(rows), key, row)
    {
      if fails {
        return Failure(DatabaseFailure);
      }
      ReplaceByKeyKeys(rows, key, row);
      rows := ReplaceByKey(rows, key, row);
      return Success(());
    }

    /** `DELETE ... WHERE id = ?`: removes the row with that id; an unknown id changes nothing. */
    method Remove(id: int, fails: bool) returns (r: Result<(), Failure>)
      requires Valid()
      modifies this
      ensures Valid() && nextId == old(nextId)
      ensures r == if fails then Failure(DatabaseFailure) else Success(())
      ensures rows == if fails then old(rows) else RemoveByKey(old(rows), key, id)
    {
      if fails {
        return Failure(DatabaseFailure);
      }
      RemoveByKeyDistinct(rows, key, id);
      RemoveByKeyFrom(rows, key, id);
      forall e | e in RemoveByKey(rows, key, id) ensures 0 < key(e) < nextId {
        var i :| 0 <= i < |rows| && rows[i] == e;
      }
      rows := RemoveByKey(rows, key, id);
      return Success(());
    }
  }

  class Database {
    const meals: Table<MealEntry>
    const water: Table<WaterEntry>
    const weights: Table<WeightMetric>
    /** The settings row, absent until first saved. */
    var settings: Option<Settings>

    constructor ()
      ensures Valid() && fresh(meals) && fresh(water) && fresh(weights)
      ensures meals.rows == [] && water.rows == [] && weights.rows == [] && settings == None
    {
      meals := new Table(MealKey);
      water := new Table(WaterKey);
      weights := new Table(WeightKey);
      settings := None;
    }

    /** Every table is valid and keyed by the records' `id`. */
    ghost predicate Valid()
      reads this, meals, water, weights
    {
      && meals.Valid() && water.Valid() && weights.Valid()
      && meals.key == MealKey && water.key == WaterKey && weights.key == WeightKey
    }

    /** `getSettings`: the stored settings, `null` before any save. */
    method GetSettings(fails: bool) returns (r: Result<Option<Settings>, Failure>)
      ensures r == if fails then Failure(DatabaseFailure) else Success(settings)
    {
      if fails {
        return Failure(DatabaseFailure);
      }
      return Success(settings);
    }

    /** `saveSettings`: stores the whole settings value. */
    method SaveSettings(s: Settings, fails: bool) returns (r: Result<(), Failure>)
      modifies this
      ensures r == if fails then Failure(DatabaseFailure) else Success(())
      ensures settings == if fails then old(settings) else Some(s)
    {
      if fails {
        return Failure(DatabaseFailure);
      }
      settings := Some(s);
      return Success(());
    }

    /** `addMealEntry({...meal, id: 0})`: the table assigns the id, whatever id the record carries. */
    method InsertMeal(m: MealEntry, fails: bool) returns (r: Result<int, Failure>)
      requires Valid()
      modifies meals
      ensures Valid()
      ensures fails ==> r == Failure(DatabaseFailure) && meals.rows == old(meals.rows)
      ensures !fails ==> && r == Success(old(meals.nextId)) && !HasKey(old(meals.rows), MealKey, r.value)
                         && meals.rows == old(meals.rows) + [m.(id := r.value)]
    {
      r := meals.Append(m.(id := meals.nextId), fails);
    }

    /** `addWaterEntry({...water, id: 0})` */
    method InsertWater(w: WaterEntry, fails: bool) returns (r: Result<int, Failure>)
      requires Valid()
      modifies water
      ensures Valid()
      ensures fails ==> r == Failure(DatabaseFailure) && water.rows == old(water.rows)
      ensures !fails ==> && r == Success(old(water.nextId)) && !HasKey(old(water.rows), WaterKey, r.value)
                         && water.rows == old(water.rows) + [w.(id := r.value)]
    {
      r := water.Append(w.(id := water.nextId), fails);
    }

    /** `addWeightEntry({...weight, id: 0})` */
    method InsertWeight(w: WeightMetric, fails: bool) returns (r: Result<int, Failure>)
      requires Valid()
      modifies weights
      ensures Valid()
      ensures fails ==> r == Failure(DatabaseFailure) && weights.rows == old(weights.rows)
      ensures !fails ==> && r == Success(old(weights.nextId)) && !HasKey(old(weights.rows), WeightKey, r.value)
                         && weights.rows == old(weights.rows) + [w.(id := r.value)]
    {
      r := weights.Append(w.(id := weights.nextId), fails);
    }
  }
}
