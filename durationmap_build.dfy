/**
 * `DurationTranslator` of the build copy
 * lib.linux-i686-2.7/ckanext/spatial/lib/durationmap.py: a maintenance
 * frequency code gives a unit and an integer factor, and an explicit ISO 8601
 * period, when it yields a unit, refines or replaces it.
 */
module DurationMapBuild {
  import opened PyText
  import DurationPattern

  /** A `duration_factor` value: Python `None`, `''`, matched digits, or an int. */
  datatype Factor = NoFactor | Blank | Digits(text: string) | Count(n: int)

  /** The result `{'duration': ..., 'duration_factor': ...}`; `None` is Python's `None`. */
  datatype Granularity = Granularity(duration: Option<string>, factor: Factor)

  function FromPattern(f: DurationPattern.Factor): Factor
  {
    match f
    case Blank => Blank
    case Digits(t) => Digits(t)
    case Count(n) => Count(n)
  }

  /** Python truthiness of a factor. */
  predicate Truthy(f: Factor)
  {
    match f
    case NoFactor => false
    case Blank => false
    case Digits(t) => |t| > 0
    case Count(n) => n != 0
  }

  /** The `if/elif` chain over the code: a unit and a factor, or `(None, None)`. */
  function CodeGranularity(duration: string): Granularity
  {
    if duration == "forthnightly" then Granularity(Some("tag"), Count(14))
    else if duration == "daily" then Granularity(Some("tag"), Count(1))
    else if duration == "weekly" then Granularity(Some("woche"), Count(1))
    else if duration == "biannually" then Granularity(Some("monat"), Count(6))
    else if duration == "monthly" then Granularity(Some("monat"), Count(1))
    else if duration == "quarterly" then Granularity(Some("monat"), Count(3))
    else if duration == "annually" then Granularity(Some("jahr"), Count(1))
    else Granularity(None, NoFactor)
  }

  /** `translate_duration_factor(period)`, whose seconds branch is labelled `'sekunde'`. */
  function TranslateDurationFactor(period: string): (r: DurationPattern.Period)
    ensures r.unit in {"", "jahr", "monat", "tag", "stunde", "minute"}
    ensures PeriodShape(r)
  {
    DurationPattern.TranslateFactorRange(period, "sekunde");
    DurationPattern.TranslateFactor(period, "sekunde")
  }

  /** `translate_duration_data(duration, duration_factor)`: the merge of code and period. */
  function TranslateDurationData(duration: string, durationFactor: string): Granularity
  {
    Merge(CodeGranularity(duration), TranslateDurationFactor(durationFactor))
  }

  /** Lines 36-40: the period refines the code's factor, or replaces the code. */
  function Merge(code: Granularity, period: DurationPattern.Period): Granularity
  {
    if code.duration == Some(period.unit) then
      Granularity(code.duration, FromPattern(period.factor))
    else if period.unit != "" && Truthy(FromPattern(period.factor)) then
      Granularity(Some(period.unit), FromPattern(period.factor))
    else
      code
  }

  /** The code table: seven codes with a unit and a factor, everything else `(None, None)`. */
  lemma CodeTable(duration: string)
    ensures CodeGranularity("forthnightly") == Granularity(Some("tag"), Count(14))
    ensures CodeGranularity("daily") == Granularity(Some("tag"), Count(1))
    ensures CodeGranularity("weekly") == Granularity(Some("woche"), Count(1))
    ensures CodeGranularity("biannually") == Granularity(Some("monat"), Count(6))
    ensures CodeGranularity("monthly") == Granularity(Some("monat"), Count(1))
    ensures CodeGranularity("quarterly") == Granularity(Some("monat"), Count(3))
    ensures CodeGranularity("annually") == Granularity(Some("jahr"), Count(1))
    ensures CodeGranularity(duration).duration.None? <==>
      duration !in {"forthnightly", "daily", "weekly", "biannually", "monthly", "quarterly", "annually"}
  {
  }

  /** What `translate_duration_factor` can return. */
  predicate PeriodShape(period: DurationPattern.Period)
  {
    (period.unit == "" ==> period.factor == DurationPattern.Blank)
    && (period.unit != "" ==> period.factor.Digits? && |period.factor.text| > 0)
  }

  /**
   * The merge rule: a period with a unit decides the unit and the factor (when
   * the units agree the code's unit is that same unit); a period without a unit
   * leaves the code's result, which for an unknown code is `(None, None)`.
   */
  lemma MergeRule(code: Granularity, period: DurationPattern.Period)
    requires PeriodShape(period) && code.duration != Some("")
    ensures period.unit != "" ==> Merge(code, period) == Granularity(Some(period.unit), FromPattern(period.factor))
    ensures period.unit == "" ==> Merge(code, period) == code
  {
  }

  lemma TranslateDurationDataRule(duration: string, durationFactor: string)
    ensures var period := TranslateDurationFactor(durationFactor);
      (period.unit != "" ==>
        TranslateDurationData(duration, durationFactor) == Granularity(Some(period.unit), FromPattern(period.factor)))
      && (period.unit == "" ==> TranslateDurationData(duration, durationFactor) == CodeGranularity(duration))
  {
    var code, period := CodeGranularity(duration), TranslateDurationFactor(durationFactor);
    CodeUnitNamed(duration);
    MergeRule(code, period);
    assert TranslateDurationData(duration, durationFactor) == Merge(code, period);
  }

  /** Every unit of the code table is a non-empty name. */
  lemma CodeUnitNamed(duration: string)
    ensures CodeGranularity(duration).duration != Some("")
  {
    var unit := CodeGranularity(duration).duration;
    assert unit.Some? ==> unit.value in {"tag", "woche", "monat", "jahr"};
  }

  /** A daily code with a three-day period keeps `tag` and takes the factor `'3'`. */
  lemma DailyEveryThreeDays()
    ensures TranslateDurationData("daily", "P3D") == Granularity(Some("tag"), Digits("3"))
  {
    var c := DurationPattern.Components(None, None, Some("3"), None, None, None);
    DurationPattern.MatchRender(c);
    assert DurationPattern.Render(c) == "P3D";
    DurationPattern.TranslateFactorPrecedence("P3D", "sekunde");
  }

  /** A period in another unit replaces the code: monthly with `P1Y` gives `('jahr', '1')`. */
  lemma PeriodOverridesCode()
    ensures TranslateDurationData("monthly", "P1Y") == Granularity(Some("jahr"), Digits("1"))
  {
    var c := DurationPattern.Components(Some("1"), None, None, None, None, None);
    DurationPattern.MatchRender(c);
    assert DurationPattern.Render(c) == "P1Y";
    DurationPattern.TranslateFactorPrecedence("P1Y", "sekunde");
    assert TranslateDurationFactor("P1Y") == DurationPattern.Period("jahr", DurationPattern.Digits("1"));
    assert CodeGranularity("monthly") == Granularity(Some("monat"), Count(1));
  }
}
