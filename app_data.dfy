/**
 * The records the diary keeps (meals, water, weight measurements, settings),
 * the in-memory snapshot of all of them, and the two object-spread merges that
 * update a snapshot or a settings value from a partial one.
 *
 * Text fields that the source tests for truthiness (`!meal.date`) are strings
 * whose empty value stands for both `""` and `undefined`; numeric fields that
 * the source compares with `undefined` are `Option<int>`.
 */
module AppData {
  import opened Wrappers

  datatype MealEntry = MealEntry(
    id: int,
    date: string,
    mealType: string,
    time: string,
    description: string,
    photoPath: Option<string>,
    hungerLevel: Option<int>,
    fullnessLevel: Option<int>,
    emotionBefore: Option<string>,
    emotionAfter: Option<string>,
    notes: Option<string>)

  datatype WaterEntry = WaterEntry(
    id: int,
    date: string,
    time: string,
    amount: Option<int>,
    thirstLevel: Option<int>,
    notes: Option<string>)

  datatype WeightMetric = WeightMetric(id: int, date: string, weight: Option<int>)

  /** `theme` is a string because stored settings are not checked against the three names when they are read. */
  datatype Settings = Settings(
    theme: string,
    waterWidget: bool,
    mealCountWidget: bool,
    weightWidget: bool,
    height: int,
    weight: int,
    keepPhotosMonths: Option<int>)

  /** The snapshot of everything the application shows. */
  datatype AppState = AppState(
    meals: seq<MealEntry>,
    water: seq<WaterEntry>,
    settings: Settings,
    weights: seq<WeightMetric>)

  function MealKey(m: MealEntry): int { m.id }
  function WaterKey(w: WaterEntry): int { w.id }
  function WeightKey(w: WeightMetric): int { w.id }

  /** The settings the store starts with and saves when the database has none. */
  const DefaultSettings: Settings :=
    Settings("system", true, true, true, 170, 70, None)

  /** The snapshot before initialization: empty lists and the default settings. */
  const InitialState: AppState := AppState([], [], DefaultSettings, [])

  /** `Partial<Settings>`: each field is either absent or carries a new value. */
  datatype SettingsPatch = SettingsPatch(
    theme: Option<string>,
    waterWidget: Option<bool>,
    mealCountWidget: Option<bool>,
    weightWidget: Option<bool>,
    height: Option<int>,
    weight: Option<int>,
    keepPhotosMonths: Option<int>)

  const NoChange: SettingsPatch := SettingsPatch(None, None, None, None, None, None, None)

  /** `{ ...current, ...patch }` */
  function MergeSettings(current: Settings, patch: SettingsPatch): Settings {
    Settings(
      patch.theme.GetOr(current.theme),
      patch.waterWidget.GetOr(current.waterWidget),
      patch.mealCountWidget.GetOr(current.mealCountWidget),
      patch.weightWidget.GetOr(current.weightWidget),
      patch.height.GetOr(current.height),
      patch.weight.GetOr(current.weight),
      if patch.keepPhotosMonths.Some? then patch.keepPhotosMonths else current.keepPhotosMonths)
  }

  /** Merging an empty patch leaves the settings as they are. */
  lemma MergeNoChange(s: Settings)
    ensures MergeSettings(s, NoChange) == s
  {
  }

  /** Merging the same patch a second time changes nothing more. */
  lemma MergeIdempotent(s: Settings, p: SettingsPatch)
    ensures MergeSettings(MergeSettings(s, p), p) == MergeSettings(s, p)
  {
  }

  /** The patch whose fields are those of `q` where present and those of `p` otherwise. */
  function ThenPatch(p: SettingsPatch, q: SettingsPatch): SettingsPatch {
    SettingsPatch(
      if q.theme.Some? then q.theme else p.theme,
      if q.waterWidget.Some? then q.waterWidget else p.waterWidget,
      if q.mealCountWidget.Some? then q.mealCountWidget else p.mealCountWidget,
      if q.weightWidget.Some? then q.weightWidget else p.weightWidget,
      if q.height.Some? then q.height else p.height,
      if q.weight.Some? then q.weight else p.weight,
      if q.keepPhotosMonths.Some? then q.keepPhotosMonths else p.keepPhotosMonths)
  }

  /** Two merges in a row are one merge of the combined patch: the later patch wins field by field. */
  lemma MergeTwice(s: Settings, p: SettingsPatch, q: SettingsPatch)
    ensures MergeSettings(MergeSettings(s, p), q) == MergeSettings(s, ThenPatch(p, q))
  {
  }

  /** A patch that sets only the height changes only the height. */
  lemma MergeHeightOnly(s: Settings, h: int)
    ensures MergeSettings(s, NoChange.(height := Some(h))) == s.(height := h)
  {
  }

  /** `Partial<AppData>`: the fields that `setAppState` replaces. */
  datatype StatePatch = StatePatch(
    meals: Option<seq<MealEntry>>,
    water: Option<seq<WaterEntry>>,
    settings: Option<Settings>,
    weights: Option<seq<WeightMetric>>)

  const NoStateChange: StatePatch := StatePatch(None, None, None, None)

  /** `{ ...state, ...patch }` */
  function ApplyStatePatch(state: AppState, patch: StatePatch): AppState {
    AppState(
      patch.meals.GetOr(state.meals),
      patch.water.GetOr(state.water),
      patch.settings.GetOr(state.settings),
      patch.weights.GetOr(state.weights))
  }
}
