/**
 * The computation in src/components/widgets/MealCounter.tsx: today's meals,
 * their number, and the count per `mealType`. The `Record<string, number>`
 * that the reduce fills is kept as the list of its entries in insertion
 * order. `Object.entries` shows string keys in that order, but lists keys
 * that are array indices (such as "0" or "12") first, in ascending numeric
 * order. The model does not reorder such keys.
 */
module MealCounter {
  import opened AppData

  /** `appState.meals.filter(entry => entry.date === today)` */
  function TodayMeals(meals: seq<MealEntry>, today: string): (r: seq<MealEntry>)
    ensures |r| <= |meals|
  {
    if meals == [] then []
    else (if meals[0].date == today then [meals[0]] else []) + TodayMeals(meals[1..], today)
  }

  /** The filter keeps exactly the meals dated today. */
  lemma {:induction false} TodayMealsMembers(meals: seq<MealEntry>, today: string)
    ensures forall m :: m in TodayMeals(meals, today) <==> m in meals && m.date == today
  {
    if meals != [] {
      TodayMealsMembers(meals[1..], today);
      assert forall m :: m in meals <==> m == meals[0] || m in meals[1..];
    }
  }

  /** One entry of the count map. */
  datatype TypeCount = TypeCount(mealType: string, count: nat)

  /** The meal types of a list, in order. */
  function Types(meals: seq<MealEntry>): (r: seq<string>)
    ensures |r| == |meals| && forall i :: 0 <= i < |r| ==> r[i] == meals[i].mealType
  {
    if meals == [] then [] else Types(meals[..|meals| - 1]) + [meals[|meals| - 1].mealType]
  }

  /** `types[type]`, with an absent key read as 0 (`|| 0`). */
  function Lookup(tally: seq<TypeCount>, t: string): nat {
    if tally == [] then 0
    else if tally[0].mealType == t then tally[0].count
    else Lookup(tally[1..], t)
  }

  /** The keys of the map, in insertion order. */
  function Keys(tally: seq<TypeCount>): (r: seq<string>)
    ensures |r| == |tally| && forall i :: 0 <= i < |r| ==> r[i] == tally[i].mealType
  {
    if tally == [] then [] else [tally[0].mealType] + Keys(tally[1..])
  }

  ghost predicate DistinctKeys(tally: seq<TypeCount>) {
    forall i, j :: 0 <= i < j < |tally| ==> tally[i].mealType != tally[j].mealType
  }

  ghost predicate Positive(tally: seq<TypeCount>) {
    forall i :: 0 <= i < |tally| ==> tally[i].count >= 1
  }

  /** `types[type] = (types[type] || 0) + 1`: an existing key is incremented in place, a new one is added last. */
  function Bump(tally: seq<TypeCount>, t: string): (r: seq<TypeCount>)
    ensures |r| == |tally| || r == tally + [TypeCount(t, 1)]
  {
    if tally == [] then [TypeCount(t, 1)]
    else if tally[0].mealType == t then [tally[0].(count := tally[0].count + 1)] + tally[1..]
    else [tally[0]] + Bump(tally[1..], t)
  }

  /** The count map over a list of meals, folded from the left. */
  function TypeCounts(meals: seq<MealEntry>): seq<TypeCount> {
    if meals == [] then [] else Bump(TypeCounts(meals[..|meals| - 1]), meals[|meals| - 1].mealType)
  }

  function Sum(tally: seq<TypeCount>): nat {
    if tally == [] then 0 else tally[0].count + Sum(tally[1..])
  }

  /** Bumping a key adds one to its count and to no other. */
  lemma {:induction false} BumpLookup(tally: seq<TypeCount>, t: string, u: string)
    ensures Lookup(Bump(tally, t), u) == Lookup(tally, u) + (if u == t then 1 else 0)
  {
    if tally != [] && tally[0].mealType != t {
      BumpLookup(tally[1..], t, u);
    }
  }

  /** Bumping keeps the keys in order and adds the key last when it is new. */
  lemma {:induction false} BumpKeys(tally: seq<TypeCount>, t: string)
    ensures Keys(Bump(tally, t)) == if t in Keys(tally) then Keys(tally) else Keys(tally) + [t]
  {
    if tally != [] {
      var rest := tally[1..];
      var r := Bump(tally, t);
      assert Keys(tally) == [tally[0].mealType] + Keys(rest);
      assert Keys(r) == [r[0].mealType] + Keys(r[1..]);
      if tally[0].mealType == t {
        assert r[1..] == rest;
      } else {
        BumpKeys(rest, t);
        assert r[1..] == Bump(rest, t);
      }
    }
  }

  /** Bumping keeps every key once. */
  lemma BumpDistinct(tally: seq<TypeCount>, t: string)
    requires DistinctKeys(tally)
    ensures DistinctKeys(Bump(tally, t))
  {
    BumpKeys(tally, t);
    var r := Bump(tally, t);
    var k := Keys(r);
    forall i, j | 0 <= i < j < |r| ensures r[i].mealType != r[j].mealType {
      assert r[i].mealType == k[i] && r[j].mealType == k[j];
      assert k[i] == Keys(tally)[i] == tally[i].mealType;
      if j < |tally| {
        assert k[j] == Keys(tally)[j] == tally[j].mealType;
      } else {
        assert k[j] == t && Keys(tally)[i] in Keys(tally);
      }
    }
  }

  /** Bumping keeps every count positive. */
  lemma {:induction false} BumpPositive(tally: seq<TypeCount>, t: string)
    requires Positive(tally)
    ensures Positive(Bump(tally, t))
  {
    if tally != [] {
      var r := Bump(tally, t);
      if tally[0].mealType == t {
        forall i | 0 < i < |r| ensures r[i].count >= 1 {
          assert r[i] == tally[i];
        }
      } else {
        BumpPositive(tally[1..], t);
        forall i | 0 < i < |r| ensures r[i].count >= 1 {
          assert r[i] == Bump(tally[1..], t)[i - 1];
        }
      }
    }
  }

  /** Bumping adds one to the total of the counts. */
  lemma {:induction false} BumpSum(tally: seq<TypeCount>, t: string)
    ensures Sum(Bump(tally, t)) == Sum(tally) + 1
  {
    if tally != [] && tally[0].mealType != t {
      BumpSum(tally[1..], t);
    }
  }

  /**
   * Each type maps to the number of meals of that type; the keys are the
   * types that occur, each once, each with a count of at least one.
   */
  lemma {:induction false} TypeCountsCorrect(meals: seq<MealEntry>)
    ensures forall t :: Lookup(TypeCounts(meals), t) == multiset(Types(meals))[t]
    ensures DistinctKeys(TypeCounts(meals)) && Positive(TypeCounts(meals))
    ensures forall t :: t in Keys(TypeCounts(meals)) <==> t in Types(meals)
  {
    if meals != [] {
      var init := meals[..|meals| - 1];
      var t := meals[|meals| - 1].mealType;
      TypeCountsCorrect(init);
      assert Types(meals) == Types(init) + [t];
      forall u ensures Lookup(TypeCounts(meals), u) == multiset(Types(meals))[u] {
        BumpLookup(TypeCounts(init), t, u);
      }
      BumpKeys(TypeCounts(init), t);
      BumpDistinct(TypeCounts(init), t);
      BumpPositive(TypeCounts(init), t);
    }
  }

  /** The per-type counts add up to the number of meals. */
  lemma {:induction false} TypeCountsSum(meals: seq<MealEntry>)
    ensures Sum(TypeCounts(meals)) == |meals|
  {
    if meals != [] {
      var init := meals[..|meals| - 1];
      TypeCountsSum(init);
      BumpSum(TypeCounts(init), meals[|meals| - 1].mealType);
    }
  }

  /** `mealCount`: the number of meals dated today. */
  function MealCount(meals: seq<MealEntry>, today: string): nat {
    |TodayMeals(meals, today)|
  }

  /** `mealTypes`: the count map over today's meals. */
  function MealTypes(meals: seq<MealEntry>, today: string): seq<TypeCount> {
    TypeCounts(TodayMeals(meals, today))
  }

  /** What the widget shows is consistent: the rows of the per-type list add up to the count above them. */
  lemma MealTypesAddUp(meals: seq<MealEntry>, today: string)
    ensures Sum(MealTypes(meals, today)) == MealCount(meals, today)
  {
    TypeCountsSum(TodayMeals(meals, today));
  }

  /** Filtering distributes over concatenation. */
  lemma {:induction false} TodayMealsAppend(a: seq<MealEntry>, b: seq<MealEntry>, today: string)
    ensures TodayMeals(a + b, today) == TodayMeals(a, today) + TodayMeals(b, today)
  {
    if a == [] {
      assert a + b == b;
    } else {
      var head := if a[0].date == today then [a[0]] else [];
      assert (a + b)[0] == a[0] && (a + b)[1..] == a[1..] + b;
      assert TodayMeals(a + b, today) == head + TodayMeals(a[1..] + b, today);
      TodayMealsAppend(a[1..], b, today);
      assert TodayMeals(a, today) == head + TodayMeals(a[1..], today);
    }
  }

  /** The dates of a list, in order. */
  function Dates(meals: seq<MealEntry>): (r: seq<string>)
    ensures |r| == |meals| && forall i :: 0 <= i < |r| ==> r[i] == meals[i].date
  {
    if meals == [] then [] else [meals[0].date] + Dates(meals[1..])
  }

  /** The count is the number of meals whose date is today. */
  lemma {:induction false} MealCountIsDateCount(meals: seq<MealEntry>, today: string)
    ensures MealCount(meals, today) == multiset(Dates(meals))[today]
  {
    if meals != [] {
      MealCountIsDateCount(meals[1..], today);
      assert Dates(meals) == [meals[0].date] + Dates(meals[1..]);
    }
  }
}
