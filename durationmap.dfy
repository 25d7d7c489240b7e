/**
 * `DurationTranslator` of ckanext/spatial/lib/durationmap.py: a lookup of
 * the MD_MaintenanceFrequencyCode values of ISO 19115:2003 (Annex B.5.18)
 * and the ISO 8601 duration reading shared with the build copy.
 */
module DurationMap {
  import opened PyText
  import DurationPattern

  /** The dictionary `map`: code -> German unit, with `None` for the unmapped codes. */
  const CodeUnits: map<string, Option<string>> := map[
    "daily" := Some("tag"),
    "weekly" := Some("woche"),
    "monthly" := Some("monat"),
    "quarterly" := Some("quartal"),
    "annually" := Some("jahr"),
    "continual" := None,
    "forthnightly" := None,
    "biannually" := None,
    "asNeeded" := None,
    "irregular" := None,
    "notPlanned" := None,
    "unknown" := None
  ]

  /** `translate_duration_data(duration)`: the table entry, or `None` outside the table. */
  function TranslateDurationData(duration: string): (r: Option<string>)
    ensures duration !in CodeUnits ==> r == None
  {
    if duration in CodeUnits then CodeUnits[duration] else None
  }

  /**
   * Exactly five codes carry a unit; every other code in the table, and every
   * string outside it, translates to `None`.
   */
  lemma CodeTranslation(duration: string)
    ensures TranslateDurationData("daily") == Some("tag")
    ensures TranslateDurationData("weekly") == Some("woche")
    ensures TranslateDurationData("monthly") == Some("monat")
    ensures TranslateDurationData("quarterly") == Some("quartal")
    ensures TranslateDurationData("annually") == Some("jahr")
    ensures TranslateDurationData(duration).Some?
      <==> duration in {"daily", "weekly", "monthly", "quarterly", "annually"}
  {
  }

  /** `translate_duration_factor(period)`, whose seconds branch is labelled `'mekunde'`. */
  function TranslateDurationFactor(period: string): (r: DurationPattern.Period)
    ensures r.unit != "5-jahre" && r.unit != "mekunde"
  {
    DurationPattern.TranslateFactorRange(period, "mekunde");
    DurationPattern.TranslateFactor(period, "mekunde")
  }

  /** Reads a period written from its components back through the pattern. */
  lemma FactorOfRendered(c: DurationPattern.Components, text: string)
    requires DurationPattern.WellFormed(c) && DurationPattern.Render(c) == text
    ensures DurationPattern.MatchDuration(text) == Some(c)
  {
    DurationPattern.MatchRender(c);
  }

  /** `P5Y` yields `jahr` with factor `'5'`, not `5-jahre`. */
  lemma FiveYears()
    ensures TranslateDurationFactor("P5Y") == DurationPattern.Period("jahr", DurationPattern.Digits("5"))
  {
    FactorOfRendered(DurationPattern.Components(Some("5"), None, None, None, None, None), "P5Y");
    DurationPattern.TranslateFactorPrecedence("P5Y", "mekunde");
  }

  /** Days take precedence over hours. */
  lemma DaysBeforeHours()
    ensures TranslateDurationFactor("P1DT12H") == DurationPattern.Period("tag", DurationPattern.Digits("1"))
  {
    FactorOfRendered(DurationPattern.Components(None, None, Some("1"), Some("12"), None, None), "P1DT12H");
    DurationPattern.TranslateFactorPrecedence("P1DT12H", "mekunde");
  }

  /** `M` after `T` is minutes. */
  lemma MinutesAfterT()
    ensures TranslateDurationFactor("PT2M") == DurationPattern.Period("minute", DurationPattern.Digits("2"))
  {
    FactorOfRendered(DurationPattern.Components(None, None, None, None, Some("2"), None), "PT2M");
    DurationPattern.TranslateFactorPrecedence("PT2M", "mekunde");
  }

  /** A seconds-only period gives `('', '')`: the seconds branch re-tests days. */
  lemma SecondsOnly()
    ensures TranslateDurationFactor("PT30S") == DurationPattern.Period("", DurationPattern.Blank)
  {
    FactorOfRendered(DurationPattern.Components(None, None, None, None, None, Some("30")), "PT30S");
    DurationPattern.TranslateFactorPrecedence("PT30S", "mekunde");
  }
}
