/**
 * The validators of src/lib/validation.ts. Each one runs every check of its
 * record kind, collects one error per failed check in the order the checks are
 * written, and answers `{ valid: true }` or `{ valid: false, errors }`.
 */
module Validation {
  import opened Wrappers
  import opened Strings
  import opened AppData

  /** One position of a regular expression without alternation or repetition. */
  datatype CharClass = Digit | Literal(c: char)

  predicate ClassMatches(k: CharClass, c: char) {
    match k
    case Digit => IsDigit(c)
    case Literal(x) => c == x
  }

  /** The whole of `s` matches `pattern`, one character per position (a regular expression anchored by `^` and `$`). */
  predicate Matches(pattern: seq<CharClass>, s: string) {
    |pattern| == |s| && forall i :: 0 <= i < |s| ==> ClassMatches(pattern[i], s[i])
  }

  /** `\d{4}-\d{2}-\d{2}` */
  const DatePattern: seq<CharClass> :=
    [Digit, Digit, Digit, Digit, Literal('-'), Digit, Digit, Literal('-'), Digit, Digit]

  /** `\d{2}:\d{2}` */
  const MinutesPattern: seq<CharClass> := [Digit, Digit, Literal(':'), Digit, Digit]

  /** `:\d{2}` */
  const SecondsPattern: seq<CharClass> := [Literal(':'), Digit, Digit]

  /** `/^\d{4}-\d{2}-\d{2}$/.test(s)`: the shape of a calendar date in the extended format of ISO 8601, with no calendar check. */
  predicate IsIsoDate(s: string) {
    Matches(DatePattern, s)
  }

  /** `/^\d{2}:\d{2}(:\d{2})?$/.test(s)` */
  predicate IsClockTime(s: string) {
    Matches(MinutesPattern, s) || Matches(MinutesPattern + SecondsPattern, s)
  }

  /** A date passes iff it is four digits, a dash, two digits, a dash and two digits. */
  lemma IsIsoDateShape(s: string)
    ensures IsIsoDate(s) <==>
      && |s| == 10
      && IsDigit(s[0]) && IsDigit(s[1]) && IsDigit(s[2]) && IsDigit(s[3]) && s[4] == '-'
      && IsDigit(s[5]) && IsDigit(s[6]) && s[7] == '-' && IsDigit(s[8]) && IsDigit(s[9])
  {
    if |s| == 10 {
      assert forall i :: 0 <= i < 10 ==> DatePattern[i] == if i == 4 || i == 7 then Literal('-') else Digit;
    }
  }

  /** Months and days are not checked: "2024-13-99" passes. */
  lemma NoCalendarCheck()
    ensures IsIsoDate("2024-13-99")
  {
    IsIsoDateShape("2024-13-99");
  }

  /** A time passes iff it is `DD:DD` or `DD:DD:DD` in digits. */
  lemma IsClockTimeShape(s: string)
    ensures IsClockTime(s) <==>
      && (|s| == 5 || |s| == 8)
      && IsDigit(s[0]) && IsDigit(s[1]) && s[2] == ':' && IsDigit(s[3]) && IsDigit(s[4])
      && (|s| == 8 ==> s[5] == ':' && IsDigit(s[6]) && IsDigit(s[7]))
  {
    var long := MinutesPattern + SecondsPattern;
    assert forall i :: 0 <= i < 5 ==> MinutesPattern[i] == if i == 2 then Literal(':') else Digit;
    assert forall i :: 0 <= i < 8 ==> long[i] == if i == 2 || i == 5 then Literal(':') else Digit;
  }

  /** One error per check; the names follow the checks of the four validators. */
  datatype ValidationError =
    | DateMissing | MealTypeMissing | TimeMissing | AmountMissing | WeightMissing
    | DateFormat | TimeFormat | HungerRange | FullnessRange | AmountRange
    | ThemeInvalid | HeightRange | WeightRange

  /** The message that the validators push for each error. */
  function Message(e: ValidationError): string {
    match e
    case DateMissing => "Дата не указана"
    case MealTypeMissing => "Тип приема пищи не указан"
    case TimeMissing => "Время не указано"
    case AmountMissing => "Количество воды не указано"
    case WeightMissing => "Вес не указан"
    case DateFormat => "Неверный формат даты (должен быть YYYY-MM-DD)"
    case TimeFormat => "Неверный формат времени (должен быть HH:MM или HH:MM:SS)"
    case HungerRange => "Уровень голода должен быть от 0 до 10"
    case FullnessRange => "Уровень сытости должен быть от 0 до 10"
    case AmountRange => "Количество воды должно быть от 1 до 3000 мл"
    case ThemeInvalid => "Неверная тема (должна быть light, dark или system)"
    case HeightRange => "Рост должен быть от 50 до 250 см"
    case WeightRange => "Вес должен быть от 20 до 500 кг"
  }

  /** The position of each check in the validators' common order. */
  function Rank(e: ValidationError): nat {
    match e
    case DateMissing => 0
    case MealTypeMissing => 1
    case TimeMissing => 2
    case AmountMissing => 3
    case WeightMissing => 4
    case DateFormat => 5
    case TimeFormat => 6
    case HungerRange => 7
    case FullnessRange => 8
    case AmountRange => 9
    case ThemeInvalid => 10
    case HeightRange => 11
    case WeightRange => 12
  }

  /** The errors appear in check order, each at most once. */
  predicate InCheckOrder(es: seq<ValidationError>) {
    forall i, j :: 0 <= i < j < |es| ==> Rank(es[i]) < Rank(es[j])
  }

  /** `if (cond) errors.push(e)` */
  function Push(es: seq<ValidationError>, cond: bool, e: ValidationError): (r: seq<ValidationError>)
    requires InCheckOrder(es)
    requires forall x :: x in es ==> Rank(x) < Rank(e)
    ensures InCheckOrder(r)
    ensures forall x :: x in r ==> Rank(x) <= Rank(e)
    ensures forall x :: x in r <==> x in es || (cond && x == e)
  {
    if cond then es + [e] else es
  }

  /** `hungerLevel < 0 || hungerLevel > 10` for a level that is present. */
  predicate OutOfLevelRange(level: Option<int>) {
    level.Some? && (level.value < 0 || level.value > 10)
  }

  /** Which checks a meal fails. */
  predicate MealViolates(m: MealEntry, e: ValidationError) {
    match e
    case DateMissing => m.date == ""
    case MealTypeMissing => m.mealType == ""
    case TimeMissing => m.time == ""
    case DateFormat => m.date != "" && !IsIsoDate(m.date)
    case TimeFormat => m.time != "" && !IsClockTime(m.time)
    case HungerRange => OutOfLevelRange(m.hungerLevel)
    case FullnessRange => OutOfLevelRange(m.fullnessLevel)
    case _ => false
  }

  /** The presence checks of `validateMeal`, which come first. */
  function MealPresenceErrors(m: MealEntry): (r: seq<ValidationError>)
    ensures forall e :: e in r <==> Rank(e) <= 2 && MealViolates(m, e)
    ensures InCheckOrder(r)
  {
    var es := Push([], m.date == "", DateMissing);
    var es := Push(es, m.mealType == "", MealTypeMissing);
    Push(es, m.time == "", TimeMissing)
  }

  /** The presence and format checks of `validateMeal`. */
  function MealFormatErrors(m: MealEntry): (r: seq<ValidationError>)
    ensures forall e :: e in r <==> Rank(e) <= 6 && MealViolates(m, e)
    ensures InCheckOrder(r)
  {
    var es := MealPresenceErrors(m);
    var es := Push(es, m.date != "" && !IsIsoDate(m.date), DateFormat);
    Push(es, m.time != "" && !IsClockTime(m.time), TimeFormat)
  }

  /** The `errors` list of `validateMeal`: every failed check, in check order. */
  function MealErrors(m: MealEntry): (r: seq<ValidationError>)
    ensures forall e :: e in r <==> MealViolates(m, e)
    ensures InCheckOrder(r)
  {
    var es := MealFormatErrors(m);
    var es := Push(es, OutOfLevelRange(m.hungerLevel), HungerRange);
    Push(es, OutOfLevelRange(m.fullnessLevel), FullnessRange)
  }

  /** Which checks a water entry fails. */
  predicate WaterViolates(w: WaterEntry, e: ValidationError) {
    match e
    case DateMissing => w.date == ""
    case TimeMissing => w.time == ""
    case AmountMissing => w.amount.None?
    case DateFormat => w.date != "" && !IsIsoDate(w.date)
    case TimeFormat => w.time != "" && !IsClockTime(w.time)
    case AmountRange => w.amount.Some? && (w.amount.value <= 0 || w.amount.value > 3000)
    case _ => false
  }

  /** The presence checks of `validateWater`, which come first. */
  function WaterPresenceErrors(w: WaterEntry): (r: seq<ValidationError>)
    ensures forall e :: e in r <==> Rank(e) <= 3 && WaterViolates(w, e)
    ensures InCheckOrder(r)
  {
    var es := Push([], w.date == "", DateMissing);
    var es := Push(es, w.time == "", TimeMissing);
    Push(es, w.amount.None?, AmountMissing)
  }

  /** The presence and format checks of `validateWater`. */
  function WaterFormatErrors(w: WaterEntry): (r: seq<ValidationError>)
    ensures forall e :: e in r <==> Rank(e) <= 6 && WaterViolates(w, e)
    ensures InCheckOrder(r)
  {
    var es := WaterPresenceErrors(w);
    var es := Push(es, w.date != "" && !IsIsoDate(w.date), DateFormat);
    Push(es, w.time != "" && !IsClockTime(w.time), TimeFormat)
  }

  /** The `errors` list of `validateWater`. */
  function WaterErrors(w: WaterEntry): (r: seq<ValidationError>)
    ensures forall e :: e in r <==> WaterViolates(w, e)
    ensures InCheckOrder(r)
  {
    var es := WaterFormatErrors(w);
    Push(es, w.amount.Some? && (w.amount.value <= 0 || w.amount.value > 3000), AmountRange)
  }

  /** Which checks a weight measurement fails. */
  predicate WeightViolates(w: WeightMetric, e: ValidationError) {
    match e
    case DateMissing => w.date == ""
    case WeightMissing => w.weight.None?
    case DateFormat => w.date != "" && !IsIsoDate(w.date)
    case WeightRange => w.weight.Some? && (w.weight.value < 20 || w.weight.value > 500)
    case _ => false
  }

  /** The `errors` list of `validateWeight`. */
  function WeightErrors(w: WeightMetric): (r: seq<ValidationError>)
    ensures forall e :: e in r <==> WeightViolates(w, e)
    ensures InCheckOrder(r)
  {
    var es := Push([], w.date == "", DateMissing);
    var es := Push(es, w.weight.None?, WeightMissing);
    var es := Push(es, w.date != "" && !IsIsoDate(w.date), DateFormat);
    Push(es, w.weight.Some? && (w.weight.value < 20 || w.weight.value > 500), WeightRange)
  }

  /** Which checks a settings value fails. */
  predicate SettingsViolates(s: Settings, e: ValidationError) {
    match e
    case ThemeInvalid => s.theme != "light" && s.theme != "dark" && s.theme != "system"
    case HeightRange => s.height < 50 || s.height > 250
    case WeightRange => s.weight < 20 || s.weight > 500
    case _ => false
  }

  /** The `errors` list of `validateSettings`. */
  function SettingsErrors(s: Settings): (r: seq<ValidationError>)
    ensures forall e :: e in r <==> SettingsViolates(s, e)
    ensures InCheckOrder(r)
  {
    var es := Push([], s.theme != "light" && s.theme != "dark" && s.theme != "system", ThemeInvalid);
    var es := Push(es, s.height < 50 || s.height > 250, HeightRange);
    Push(es, s.weight < 20 || s.weight > 500, WeightRange)
  }

  /** `{ valid: boolean; errors?: string[] }` */
  datatype Verdict = Verdict(valid: bool, errors: Option<seq<string>>)

  /** `errors`: the message of each failed check, in check order. */
  function Messages(es: seq<ValidationError>): seq<string> {
    seq(|es|, i requires 0 <= i < |es| => Message(es[i]))
  }

  /** The common tail of the four validators: invalid, with the messages, exactly when some check failed. */
  function Judge(es: seq<ValidationError>): (v: Verdict)
    ensures v.valid <==> es == []
    ensures v.valid <==> v.errors.None?
    ensures !v.valid ==> v.errors == Some(Messages(es))
  {
    if |es| > 0 then Verdict(false, Some(Messages(es))) else Verdict(true, None)
  }

  function ValidateMeal(m: MealEntry): Verdict { Judge(MealErrors(m)) }
  function ValidateWater(w: WaterEntry): Verdict { Judge(WaterErrors(w)) }
  function ValidateWeight(w: WeightMetric): Verdict { Judge(WeightErrors(w)) }
  function ValidateSettings(s: Settings): Verdict { Judge(SettingsErrors(s)) }

  /** A meal that passes every rule, stated without the validator. */
  predicate WellFormedMeal(m: MealEntry) {
    && m.date != "" && IsIsoDate(m.date)
    && m.mealType != ""
    && m.time != "" && IsClockTime(m.time)
    && !OutOfLevelRange(m.hungerLevel)
    && !OutOfLevelRange(m.fullnessLevel)
  }

  /** `validateMeal` accepts exactly the well-formed meals; when it rejects, it reports at least one message. */
  lemma ValidateMealAccepts(m: MealEntry)
    ensures ValidateMeal(m).valid <==> WellFormedMeal(m)
    ensures !ValidateMeal(m).valid ==> |ValidateMeal(m).errors.value| > 0
  {
    var es := MealErrors(m);
    if !WellFormedMeal(m) {
      if m.date == "" { assert DateMissing in es; }
      else if !IsIsoDate(m.date) { assert DateFormat in es; }
      else if m.mealType == "" { assert MealTypeMissing in es; }
      else if m.time == "" { assert TimeMissing in es; }
      else if !IsClockTime(m.time) { assert TimeFormat in es; }
      else if OutOfLevelRange(m.hungerLevel) { assert HungerRange in es; }
      else { assert FullnessRange in es; }
    }
  }

  /** A missing date is reported as missing and never as badly formatted: the format check is guarded by presence. */
  lemma MissingDateIsNotMisformatted(m: MealEntry)
    requires m.date == ""
    ensures DateMissing in MealErrors(m) && DateFormat !in MealErrors(m)
  {
  }

  /** An absent hunger or fullness level raises nothing; a present one outside [0, 10] raises exactly its own error. */
  lemma LevelChecks(m: MealEntry)
    ensures HungerRange in MealErrors(m) <==> m.hungerLevel.Some? && !(0 <= m.hungerLevel.value <= 10)
    ensures FullnessRange in MealErrors(m) <==> m.fullnessLevel.Some? && !(0 <= m.fullnessLevel.value <= 10)
  {
  }

  /** A water entry that passes every rule, stated without the validator. */
  predicate WellFormedWater(w: WaterEntry) {
    && w.date != "" && IsIsoDate(w.date)
    && w.time != "" && IsClockTime(w.time)
    && w.amount.Some? && 0 < w.amount.value <= 3000
  }

  /** `validateWater` accepts exactly the well-formed entries: an amount passes iff 0 < amount <= 3000. */
  lemma ValidateWaterAccepts(w: WaterEntry)
    ensures ValidateWater(w).valid <==> WellFormedWater(w)
  {
    var es := WaterErrors(w);
    if !WellFormedWater(w) {
      if w.date == "" { assert DateMissing in es; }
      else if !IsIsoDate(w.date) { assert DateFormat in es; }
      else if w.time == "" { assert TimeMissing in es; }
      else if !IsClockTime(w.time) { assert TimeFormat in es; }
      else if w.amount.None? { assert AmountMissing in es; }
      else { assert AmountRange in es; }
    }
  }

  /** An undefined amount gives the presence error and not the range error. */
  lemma MissingAmountOnlyPresence(w: WaterEntry)
    requires w.amount.None?
    ensures AmountMissing in WaterErrors(w) && AmountRange !in WaterErrors(w)
  {
  }

  /** A weight measurement that passes every rule, stated without the validator. */
  predicate WellFormedWeight(w: WeightMetric) {
    && w.date != "" && IsIsoDate(w.date)
    && w.weight.Some? && 20 <= w.weight.value <= 500
  }

  /** `validateWeight` accepts exactly the well-formed measurements: a weight passes iff it lies in [20, 500]. */
  lemma ValidateWeightAccepts(w: WeightMetric)
    ensures ValidateWeight(w).valid <==> WellFormedWeight(w)
  {
    var es := WeightErrors(w);
    if !WellFormedWeight(w) {
      if w.date == "" { assert DateMissing in es; }
      else if !IsIsoDate(w.date) { assert DateFormat in es; }
      else if w.weight.None? { assert WeightMissing in es; }
      else { assert WeightRange in es; }
    }
  }

  /** Settings that pass every rule: a known theme, height in [50, 250], weight in [20, 500]. */
  predicate WellFormedSettings(s: Settings) {
    && (s.theme == "light" || s.theme == "dark" || s.theme == "system")
    && 50 <= s.height <= 250
    && 20 <= s.weight <= 500
  }

  /** `validateSettings` accepts exactly the well-formed settings. */
  lemma ValidateSettingsAccepts(s: Settings)
    ensures ValidateSettings(s).valid <==> WellFormedSettings(s)
  {
    var es := SettingsErrors(s);
    if !WellFormedSettings(s) {
      if s.theme != "light" && s.theme != "dark" && s.theme != "system" { assert ThemeInvalid in es; }
      else if s.height < 50 || s.height > 250 { assert HeightRange in es; }
      else { assert WeightRange in es; }
    }
  }

  /** The default settings pass validation. */
  lemma DefaultSettingsValid()
    ensures ValidateSettings(DefaultSettings).valid
  {
    ValidateSettingsAccepts(DefaultSettings);
  }

  /** An entry of 5000 ml is rejected with the amount-range message. */
  lemma TooMuchWaterRejected()
    ensures var w := WaterEntry(0, "2024-05-01", "10:00", Some(5000), None, None);
      && !ValidateWater(w).valid
      && Message(AmountRange) in ValidateWater(w).errors.value
  {
    var w := WaterEntry(0, "2024-05-01", "10:00", Some(5000), None, None);
    assert AmountRange in WaterErrors(w);
    var i :| 0 <= i < |WaterErrors(w)| && WaterErrors(w)[i] == AmountRange;
    assert ValidateWater(w).errors.value[i] == Message(AmountRange);
  }
}
