/**
 * The computation in the effect of src/components/widgets/MealCountWidget.tsx:
 * today's meal count (the same filter as the meal counter) and the time of
 * the latest meal, found by sorting a copy of today's meals by time,
 * newest first, and taking the head. The comparison is `localeCompare`, taken
 * here as the lexicographic order of the characters.
 */
module MealCountWidget {
  import opened Wrappers
  import opened Strings
  import opened AppData
  import opened MealCounter

  /** Inserts a meal before the first one whose time is not later (a stable insertion step of the descending sort). */
  function InsertByTime(m: MealEntry, ms: seq<MealEntry>): (r: seq<MealEntry>)
    ensures |r| == |ms| + 1
  {
    if ms == [] || LexLessEq(ms[0].time, m.time) then [m] + ms
    else [ms[0]] + InsertByTime(m, ms[1..])
  }

  /** `[...todayMeals].sort((a, b) => b.time.localeCompare(a.time))` */
  function SortByTimeDesc(ms: seq<MealEntry>): (r: seq<MealEntry>)
    ensures |r| == |ms|
  {
    if ms == [] then [] else InsertByTime(ms[0], SortByTimeDesc(ms[1..]))
  }

  /** `lastMealTime`: `null` without meals today, else the time at the head of the sorted copy. */
  function LatestMealTime(meals: seq<MealEntry>, today: string): Option<string> {
    var todayMeals := TodayMeals(meals, today);
    if |todayMeals| > 0 then Some(SortByTimeDesc(todayMeals)[0].time) else None
  }

  /** The sorted copy holds the same meals. */
  lemma {:induction false} SortByTimeDescElements(ms: seq<MealEntry>)
    ensures multiset(SortByTimeDesc(ms)) == multiset(ms)
  {
    if ms != [] {
      SortByTimeDescElements(ms[1..]);
      InsertByTimeElements(ms[0], SortByTimeDesc(ms[1..]));
      assert ms == [ms[0]] + ms[1..];
    }
  }

  lemma {:induction false} InsertByTimeElements(m: MealEntry, ms: seq<MealEntry>)
    ensures multiset(InsertByTime(m, ms)) == multiset(ms) + multiset{m}
  {
    if ms != [] && !LexLessEq(ms[0].time, m.time) {
      InsertByTimeElements(m, ms[1..]);
      assert ms == [ms[0]] + ms[1..];
    }
  }

  /** The head of the sorted copy is one of the meals, and no meal has a later time. */
  lemma {:induction false} SortByTimeDescHead(ms: seq<MealEntry>)
    requires ms != []
    ensures SortByTimeDesc(ms)[0] in ms
    ensures forall m :: m in ms ==> LexLessEq(m.time, SortByTimeDesc(ms)[0].time)
  {
    var x := ms[0];
    var rest := ms[1..];
    assert ms == [x] + rest;
    var sorted := SortByTimeDesc(rest);
    LexReflexive(x.time);
    if rest == [] {
      assert SortByTimeDesc(ms) == [x];
    } else {
      SortByTimeDescHead(rest);
      var top := sorted[0];
      if LexLessEq(top.time, x.time) {
        forall m | m in ms ensures LexLessEq(m.time, x.time) {
          if m in rest {
            LexTransitive(m.time, top.time, x.time);
          }
        }
      } else {
        LexTotal(top.time, x.time);
        assert SortByTimeDesc(ms)[0] == top;
      }
    }
  }

  /** The latest time is absent exactly when there is no meal today. */
  lemma LatestAbsentIff(meals: seq<MealEntry>, today: string)
    ensures LatestMealTime(meals, today).None? <==> MealCount(meals, today) == 0
  {
  }

  /** Otherwise it is the time of one of today's meals, and no meal of today has a later time. */
  lemma LatestIsGreatest(meals: seq<MealEntry>, today: string)
    requires LatestMealTime(meals, today).Some?
    ensures var t := LatestMealTime(meals, today).value;
      && (exists m :: m in meals && m.date == today && m.time == t)
      && forall m :: m in meals && m.date == today ==> LexLessEq(m.time, t)
  {
    var todayMeals := TodayMeals(meals, today);
    SortByTimeDescHead(todayMeals);
    TodayMealsMembers(meals, today);
  }
}
