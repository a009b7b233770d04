/**
 * The computation in the effect of src/components/widgets/WaterIndicator.tsx:
 * today's water total, the daily norm derived from height and weight, and
 * whether the norm is met. An entry without an amount turns the JavaScript sum
 * into `NaN`; here that total is `None`, and `NaN >= norm` is false.
 */
module WaterIndicator {
  import opened Wrappers
  import opened AppData

  /** `appState.water.filter(entry => entry.date === today)` */
  function TodayWater(water: seq<WaterEntry>, today: string): (r: seq<WaterEntry>)
    ensures |r| <= |water|
  {
    if water == [] then []
    else (if water[0].date == today then [water[0]] else []) + TodayWater(water[1..], today)
  }

  /** The filter keeps exactly the entries dated today. */
  lemma {:induction false} TodayWaterMembers(water: seq<WaterEntry>, today: string)
    ensures forall e :: e in TodayWater(water, today) <==> e in water && e.date == today
  {
    if water != [] {
      TodayWaterMembers(water[1..], today);
      assert forall e :: e in water <==> e == water[0] || e in water[1..];
    }
  }

  /** Number addition where `None` is `NaN`, which absorbs everything. */
  function Plus(a: Option<int>, b: Option<int>): Option<int> {
    if a.Some? && b.Some? then Some(a.value + b.value) else None
  }

  /** `entries.reduce((total, entry) => total + entry.amount, 0)`, folded from the left. */
  function Total(entries: seq<WaterEntry>): Option<int> {
    if entries == [] then Some(0)
    else Plus(Total(entries[..|entries| - 1]), entries[|entries| - 1].amount)
  }

  function TodayTotal(water: seq<WaterEntry>, today: string): Option<int> {
    Total(TodayWater(water, today))
  }

  /** `idealWeight = height - 100`; the norm is 30 ml per kilogram of the lesser of weight and ideal weight. */
  function WaterNorm(s: Settings): (n: int)
    ensures n <= 30 * s.weight && n <= 30 * (s.height - 100)
    ensures n == 30 * s.weight || n == 30 * (s.height - 100)
  {
    var idealWeight := s.height - 100;
    if s.weight < idealWeight then s.weight * 30 else idealWeight * 30
  }

  /** `totalWaterToday >= waterNorm` */
  predicate NormMet(total: Option<int>, norm: int) {
    total.Some? && total.value >= norm
  }

  /** The widget's verdict for a snapshot. */
  predicate NormMetToday(state: AppState, today: string) {
    NormMet(TodayTotal(state.water, today), WaterNorm(state.settings))
  }

  /** Filtering distributes over concatenation. */
  lemma {:induction false} TodayWaterAppend(a: seq<WaterEntry>, b: seq<WaterEntry>, today: string)
    ensures TodayWater(a + b, today) == TodayWater(a, today) + TodayWater(b, today)
  {
    if a == [] {
      assert a + b == b;
    } else {
      var head := if a[0].date == today then [a[0]] else [];
      assert (a + b)[0] == a[0] && (a + b)[1..] == a[1..] + b;
      assert TodayWater(a + b, today) == head + TodayWater(a[1..] + b, today);
      TodayWaterAppend(a[1..], b, today);
      assert TodayWater(a, today) == head + TodayWater(a[1..], today);
    }
  }

  /** Summing two lists one after the other is summing their totals. */
  lemma {:induction false} TotalAppend(a: seq<WaterEntry>, b: seq<WaterEntry>)
    ensures Total(a + b) == Plus(Total(a), Total(b))
  {
    if b == [] {
      assert a + b == a;
    } else {
      var b' := b[..|b| - 1];
      assert (a + b)[..|a + b| - 1] == a + b';
      assert (a + b)[|a + b| - 1] == b[|b| - 1];
      TotalAppend(a, b');
    }
  }

  /** The total is a number exactly when every entry carries an amount. */
  lemma {:induction false} TotalIsNumberIff(entries: seq<WaterEntry>)
    ensures Total(entries).Some? <==> forall i :: 0 <= i < |entries| ==> entries[i].amount.Some?
  {
    if entries != [] {
      var init := entries[..|entries| - 1];
      TotalIsNumberIff(init);
      assert forall i :: 0 <= i < |init| ==> init[i] == entries[i];
    }
  }

  /** With amounts accepted by the validator (1..3000 ml), the total lies between the number of entries and 3000 ml per entry. */
  lemma {:induction false} TotalBounds(entries: seq<WaterEntry>)
    requires forall i :: 0 <= i < |entries| ==> entries[i].amount.Some? && 0 < entries[i].amount.value <= 3000
    ensures Total(entries).Some?
    ensures |entries| <= Total(entries).value <= 3000 * |entries|
  {
    if entries != [] {
      var init := entries[..|entries| - 1];
      assert forall i :: 0 <= i < |init| ==> init[i] == entries[i];
      TotalBounds(init);
    }
  }

  /** An entry dated on another day, wherever it sits in the list, leaves today's total as it was. */
  lemma OtherDatesIgnored(a: seq<WaterEntry>, e: WaterEntry, b: seq<WaterEntry>, today: string)
    requires e.date != today
    ensures TodayTotal(a + [e] + b, today) == TodayTotal(a + b, today)
  {
    TodayWaterAppend(a + [e], b, today);
    TodayWaterAppend(a, [e], today);
    TodayWaterAppend(a, b, today);
    assert TodayWater(a, today) + [] == TodayWater(a, today);
  }

  /** An entry dated today adds its amount to today's total. */
  lemma TodayEntryAdds(water: seq<WaterEntry>, e: WaterEntry, today: string)
    requires e.date == today
    ensures TodayTotal(water + [e], today) == Plus(TodayTotal(water, today), e.amount)
  {
    TodayWaterAppend(water, [e], today);
    assert [e][1..] == [];
    TotalAppend(TodayWater(water, today), [e]);
    assert Total([e]) == Plus(Some(0), e.amount) by {
      assert [e][..0] == [];
    }
  }

  /** Drinking more today never undoes a met norm. */
  lemma NormStaysMet(state: AppState, e: WaterEntry, today: string)
    requires NormMetToday(state, today)
    requires e.date == today && e.amount.Some? && e.amount.value >= 0
    ensures NormMetToday(state.(water := state.water + [e]), today)
  {
    TodayEntryAdds(state.water, e, today);
  }

  /** With the default settings (170 cm, 70 kg) the norm is 2100 ml. */
  lemma DefaultNorm()
    ensures WaterNorm(DefaultSettings) == 2100
  {
  }
}
