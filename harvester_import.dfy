/**
 * The decisions the import stage of ckanext/spatial/harvesters.py takes on
 * a harvested record, each as a function of what it reads: whether to
 * import at all, the OGPD date entries, the temporal granularity, the
 * package type, the resource recommended for the WMS preview and the
 * licence URL extra.
 */
module HarvesterImport {
  import opened PyText
  import FieldMapper
  import DurationPattern
  import DurationMap
  import LegalConstraints

  // ---------------------------------------------------------------------
  // Re-import decision
  // ---------------------------------------------------------------------

  /** A metadata date; only the order of two dates matters. */
  type Date = int

  /** The current harvest object stored for the record's GUID. */
  datatype Stored = Stored(date: Option<Date>, content: string, sourceActive: bool, packageDeleted: bool)

  /** What the import stage goes on to do with the package. */
  datatype Decision = Create | Update(reactivate: bool) | Skip

  /** The exceptions the decision can raise. */
  datatype Failure =
    | MoreThanOneCurrent
    | ContentChangedDateNot
    | TypeError  // `None < datetime` in Python 2

  datatype Outcome = Decided(decision: Decision) | Raised(failure: Failure)

  /** The update test: stored date missing or older, import forced, or equal dates with an inactive source. */
  predicate NeedsUpdate(last: Stored, date: Date, force: bool)
  {
    last.date.None? || last.date.value < date || force || (last.date.value == date && !last.sourceActive)
  }

  /**
   * The decision for a record with metadata date `date` and content
   * `content`, given the current harvest objects stored for its GUID.
   */
  function ImportDecision(current: seq<Stored>, date: Date, content: string, force: bool): (r: Outcome)
    ensures |current| == 0 <==> r == Decided(Create)
    ensures |current| > 1 <==> r == Raised(MoreThanOneCurrent)
  {
    if |current| > 1 then Raised(MoreThanOneCurrent)
    else if |current| == 0 then Decided(Create)
    else
      var last := current[0];
      if NeedsUpdate(last, date, force) then
        if last.packageDeleted then
          if last.date.None? then Raised(TypeError)
          else if last.date.value < date then Decided(Update(true))
          else Decided(Skip)
        else Decided(Update(false))
      else if last.content != content && last.date == Some(date) then Raised(ContentChangedDateNot)
      else Decided(Skip)
  }

  /**
   * For a single stored record: the package is updated exactly when the
   * update test holds (a deleted package only when the new date is strictly
   * later, and then it is reactivated); otherwise it is skipped, unless the
   * content changed under an unchanged date.
   */
  lemma DecisionSpec(last: Stored, date: Date, content: string, force: bool)
    ensures var r := ImportDecision([last], date, content, force);
      && (r == Decided(Update(false)) <==> NeedsUpdate(last, date, force) && !last.packageDeleted)
      && (r == Decided(Update(true)) <==> last.packageDeleted && last.date.Some? && last.date.value < date)
      && (r == Raised(ContentChangedDateNot) <==>
            !force && last.date == Some(date) && last.sourceActive && last.content != content)
      && (r == Raised(TypeError) <==> NeedsUpdate(last, date, force) && last.packageDeleted && last.date.None?)
  {
  }

  /** A stored record at least as recent as the new one is never re-imported unless forced. */
  lemma NewerStoredSkipped(last: Stored, date: Date, content: string)
    requires last.date.Some? && last.date.value > date
    ensures ImportDecision([last], date, content, false) == Decided(Skip)
  {
  }

  /** Forcing the import never skips a live package. */
  lemma ForcedUpdates(last: Stored, date: Date, content: string)
    requires !last.packageDeleted
    ensures ImportDecision([last], date, content, true) == Decided(Update(false))
  {
  }

  /** A deleted package stored without a date cannot be compared: the stage raises. */
  lemma DeletedWithoutDateRaises(content0: string, active: bool, date: Date, content: string, force: bool)
    ensures ImportDecision([Stored(None, content0, active, true)], date, content, force) == Raised(TypeError)
  {
  }

  // ---------------------------------------------------------------------
  // Dates
  // ---------------------------------------------------------------------

  /** An OGPD date entry `{'role': ..., 'date': ...}`. */
  datatype DateEntry = DateEntry(role: string, date: FieldMapper.Value)

  /**
   * `extras['dates']`: the release entry (`date-released` when that list is
   * not empty, else `metadata-date`), one update entry per updated date, and
   * a creation entry with the first creation date when there is one.
   */
  function Dates(released: seq<FieldMapper.Value>, metadataDate: FieldMapper.Value,
                 updated: seq<FieldMapper.Value>, created: seq<FieldMapper.Value>): (r: seq<DateEntry>)
  {
    var release := DateEntry("veroeffentlicht", if |released| > 0 then FieldMapper.List(released) else metadataDate);
    [release] + UpdateEntries(updated) + (if |created| > 0 then [DateEntry("erstellt", created[0])] else [])
  }

  function UpdateEntries(updated: seq<FieldMapper.Value>): (r: seq<DateEntry>)
    ensures |r| == |updated|
    ensures forall i | 0 <= i < |r| :: r[i] == DateEntry("aktualisiert", updated[i])
  {
    if |updated| == 0 then [] else UpdateEntries(updated[..|updated| - 1]) + [DateEntry("aktualisiert", updated[|updated| - 1])]
  }

  /** The shape of the date list, entry by entry. */
  lemma DatesSpec(released: seq<FieldMapper.Value>, metadataDate: FieldMapper.Value,
                  updated: seq<FieldMapper.Value>, created: seq<FieldMapper.Value>)
    ensures var r := Dates(released, metadataDate, updated, created);
      && |r| == 1 + |updated| + (if |created| > 0 then 1 else 0)
      && r[0].role == "veroeffentlicht"
      && r[0].date == (if |released| > 0 then FieldMapper.List(released) else metadataDate)
      && (forall i | 1 <= i <= |updated| :: r[i] == DateEntry("aktualisiert", updated[i - 1]))
      && ((exists i | 0 <= i < |r| :: r[i].role == "erstellt") <==> |created| > 0)
      && (|created| > 0 ==> r[|r| - 1] == DateEntry("erstellt", created[0]))
  {
    var r := Dates(released, metadataDate, updated, created);
    assert forall i | 1 <= i <= |updated| :: r[i] == UpdateEntries(updated)[i - 1];
    assert forall i | 0 <= i <= |updated| :: r[i].role != "erstellt";
    if |created| > 0 {
      assert r[|r| - 1].role == "erstellt";
    }
  }

  /** The date block of the import, with its loop over the updated dates. */
  method BuildDates(released: seq<FieldMapper.Value>, metadataDate: FieldMapper.Value,
                    updated: seq<FieldMapper.Value>, created: seq<FieldMapper.Value>) returns (dates: seq<DateEntry>)
    ensures dates == Dates(released, metadataDate, updated, created)
  {
    var dateCreated := DateEntry("erstellt", FieldMapper.Str(""));
    var dateReleased := DateEntry("veroeffentlicht", FieldMapper.Str(""));
    if |released| > 0 {
      dateReleased := dateReleased.(date := FieldMapper.List(released));
    } else {
      dateReleased := dateReleased.(date := metadataDate);
    }
    dates := [dateReleased];
    var i := 0;
    while i < |updated|
      invariant 0 <= i <= |updated|
      invariant dates == [dateReleased] + UpdateEntries(updated[..i])
    {
      assert updated[..i + 1][..i] == updated[..i];
      dates := dates + [DateEntry("aktualisiert", updated[i])];
      i := i + 1;
    }
    assert updated[..|updated|] == updated;
    if |created| > 0 {
      dateCreated := dateCreated.(date := created[0]);
      dates := dates + [dateCreated];
    }
  }

  // ---------------------------------------------------------------------
  // Temporal granularity
  // ---------------------------------------------------------------------

  /** Python truthiness of a `duration_factor` (or of the ints 14 and 6). */
  predicate FactorSet(f: DurationPattern.Factor)
  {
    match f
    case Blank => false
    case Digits(t) => t != ""
    case Count(n) => n != 0
  }

  /** The two extras written: `temporal_granularity` and `temporal_granularity_factor`, when set. */
  datatype Granularity = Granularity(unit: Option<string>, factor: Option<DurationPattern.Factor>)

  /**
   * The granularity block: `frequency` is `frequency-of-update`, `period` the
   * `frequency-of-update-factor` when that key is present.
   */
  function GranularityOf(frequency: string, period: Option<string>): (r: Granularity)
    ensures r.unit.Some? ==> r.unit.value != ""
    ensures r.factor.Some? ==> FactorSet(r.factor.value)
  {
    var code := DurationMap.TranslateDurationData(frequency);
    var duration := if period.Some? then Some(DurationMap.TranslateDurationFactor(period.value)) else None;
    var (unit, factor) :=
      if code.Some? && code.value != "" then
        (code.value, if duration.Some? && duration.value.unit == code.value then duration.value.factor
                     else DurationPattern.Blank)
      else if frequency == "forthnightly" then ("Tag", DurationPattern.Count(14))
      else if frequency == "biannually" then ("Monat", DurationPattern.Count(6))
      else if duration.Some? then (duration.value.unit, duration.value.factor)
      else ("", DurationPattern.Blank);
    Granularity(if unit != "" then Some(unit) else None, if FactorSet(factor) then Some(factor) else None)
  }

  /**
   * A code the table maps fixes the unit; the period contributes its factor
   * only when its unit is that same unit.
   */
  lemma MappedCodeWins(frequency: string, period: Option<string>)
    requires DurationMap.TranslateDurationData(frequency).Some?
    ensures var unit := DurationMap.TranslateDurationData(frequency).value;
      var r := GranularityOf(frequency, period);
      && r.unit == Some(unit)
      && (r.factor.Some? ==> period.Some? && DurationMap.TranslateDurationFactor(period.value).unit == unit
                             && r.factor.value == DurationMap.TranslateDurationFactor(period.value).factor)
  {
    DurationMap.CodeTranslation(frequency);
  }

  /** Fortnightly and biannual updates have no table unit and get a fixed one, whatever the period says. */
  lemma FixedFrequencies(period: Option<string>)
    ensures GranularityOf("forthnightly", period) == Granularity(Some("Tag"), Some(DurationPattern.Count(14)))
    ensures GranularityOf("biannually", period) == Granularity(Some("Monat"), Some(DurationPattern.Count(6)))
  {
    DurationMap.CodeTranslation("forthnightly");
    DurationMap.CodeTranslation("biannually");
  }

  /** Any other code falls back to the period's unit and factor. */
  lemma PeriodFallback(frequency: string, period: string)
    requires DurationMap.TranslateDurationData(frequency).None?
    requires frequency != "forthnightly" && frequency != "biannually"
    ensures var d := DurationMap.TranslateDurationFactor(period);
      GranularityOf(frequency, Some(period))
        == Granularity(if d.unit != "" then Some(d.unit) else None, if FactorSet(d.factor) then Some(d.factor) else None)
  {
  }

  /** `monthly` with `P3M`: the units agree and the factor is kept. */
  lemma MonthlyEveryThree()
    ensures GranularityOf("monthly", Some("P3M")) == Granularity(Some("monat"), Some(DurationPattern.Digits("3")))
  {
    DurationMap.FactorOfRendered(DurationPattern.Components(None, Some("3"), None, None, None, None), "P3M");
    DurationPattern.TranslateFactorPrecedence("P3M", "mekunde");
    DurationMap.CodeTranslation("monthly");
  }

  /** `daily` with `P3M`: the units differ and no factor is written. */
  lemma DailyMismatch()
    ensures GranularityOf("daily", Some("P3M")) == Granularity(Some("tag"), None)
  {
    DurationMap.FactorOfRendered(DurationPattern.Components(None, Some("3"), None, None, None, None), "P3M");
    DurationPattern.TranslateFactorPrecedence("P3M", "mekunde");
    DurationMap.CodeTranslation("daily");
  }

  // ---------------------------------------------------------------------
  // Package type and WMS preview
  // ---------------------------------------------------------------------

  /** A resource of the package: its `format` (`None` when unknown) and whether it was verified as a WMS. */
  datatype Resource = Resource(format: Option<string>, verified: bool, recommended: bool)

  predicate AllPdf(resources: seq<Resource>)
  {
    forall i | 0 <= i < |resources| :: resources[i].format == Some("PDF")
  }

  /**
   * `package_dict['type']`; `None` when the package has no resources and is
   * skipped.
   */
  function PackageType(resources: seq<Resource>, resourceTypes: seq<string>): (r: Option<string>)
    ensures r.Some? <==> |resources| > 0
    ensures r.Some? ==> r.value in {"dokument", "app", "datensatz"}
  {
    if |resources| == 0 then None
    else if AllPdf(resources) then Some("dokument")
    else if "service" in resourceTypes || "application" in resourceTypes then Some("app")
    else if "document" in resourceTypes then Some("dokument")
    else if "dataset" in resourceTypes || "nonGeographicDataset" in resourceTypes
         || "database" in resourceTypes || "series" in resourceTypes then Some("datensatz")
    else Some("dokument")
  }

  /** Each type, with the exact condition under which it is chosen. */
  lemma PackageTypeSpec(resources: seq<Resource>, types: seq<string>)
    requires |resources| > 0
    ensures PackageType(resources, types) == Some("app") <==>
      !AllPdf(resources) && ("service" in types || "application" in types)
    ensures PackageType(resources, types) == Some("datensatz") <==>
      !AllPdf(resources) && "service" !in types && "application" !in types && "document" !in types
      && ("dataset" in types || "nonGeographicDataset" in types || "database" in types || "series" in types)
    ensures PackageType(resources, types) == Some("dokument") <==>
      AllPdf(resources)
      || ("service" !in types && "application" !in types
          && ("document" in types
              || ("dataset" !in types && "nonGeographicDataset" !in types && "database" !in types && "series" !in types)))
  {
  }

  predicate IsWms(r: Resource)
  {
    r.format == Some("WMS")
  }

  predicate IsVerifiedWms(r: Resource)
  {
    r.verified && IsWms(r)
  }

  /** The first index whose resource satisfies `p`. */
  function FirstWhere(resources: seq<Resource>, p: Resource -> bool): (r: Option<nat>)
    ensures r.Some? ==> (r.value < |resources| && p(resources[r.value])
                         && forall j | 0 <= j < r.value :: !p(resources[j]))
    ensures r.None? ==> forall j | 0 <= j < |resources| :: !p(resources[j])
    decreases |resources|
  {
    if |resources| == 0 then None
    else if p(resources[0]) then Some(0)
    else
      match FirstWhere(resources[1..], p)
      case None => None
      case Some(k) => Some(k + 1)
  }

  /** The resource recommended for the WMS preview: the first verified WMS, else the first WMS. */
  function PreviewIndex(resources: seq<Resource>): (r: Option<nat>)
  {
    var verified := FirstWhere(resources, IsVerifiedWms);
    if verified.Some? then verified else FirstWhere(resources, IsWms)
  }

  /** The resources after `ckan_recommended_wms_preview` is set on the chosen one. */
  function Recommended(resources: seq<Resource>): (r: seq<Resource>)
  {
    match PreviewIndex(resources)
    case None => resources
    case Some(i) => resources[i := resources[i].(recommended := true)]
  }

  /**
   * The preview goes to a WMS resource: a verified one whenever there is
   * one, the first of its kind, and to none when there is no WMS at all.
   */
  lemma PreviewSpec(resources: seq<Resource>)
    ensures PreviewIndex(resources).None? <==> forall j | 0 <= j < |resources| :: !IsWms(resources[j])
    ensures PreviewIndex(resources).Some? ==> var i := PreviewIndex(resources).value;
      i < |resources| && IsWms(resources[i])
      && ((exists j | 0 <= j < |resources| :: IsVerifiedWms(resources[j])) ==>
            resources[i].verified && forall j | 0 <= j < i :: !IsVerifiedWms(resources[j]))
      && ((forall j | 0 <= j < |resources| :: !IsVerifiedWms(resources[j])) ==>
            forall j | 0 <= j < i :: !IsWms(resources[j]))
  {
  }

  /** Only the chosen resource changes, and only its `recommended` flag. */
  lemma RecommendedOnlyFlag(resources: seq<Resource>)
    ensures |Recommended(resources)| == |resources|
    ensures forall j | 0 <= j < |resources| ::
      Recommended(resources)[j] == resources[j].(recommended := resources[j].recommended || PreviewIndex(resources) == Some(j))
  {
  }

  /** The position where a scan that stopped at `i` leaves `FirstWhere`. */
  lemma FirstWhereAt(resources: seq<Resource>, p: Resource -> bool, i: nat)
    requires i <= |resources| && forall j | 0 <= j < i :: !p(resources[j])
    ensures i < |resources| && p(resources[i]) ==> FirstWhere(resources, p) == Some(i)
    ensures i == |resources| ==> FirstWhere(resources, p).None?
  {
  }

  /** The first index from which `p` holds, scanning the array from the start. */
  method ScanFor(resources: array<Resource>, p: Resource -> bool) returns (found: Option<nat>)
    ensures found == FirstWhere(resources[..], p)
  {
    var i := 0;
    while i < resources.Length && !p(resources[i])
      invariant 0 <= i <= resources.Length
      invariant forall j | 0 <= j < i :: !p(resources[j])
    {
      i := i + 1;
    }
    FirstWhereAt(resources[..], p, i);
    found := if i < resources.Length then Some(i) else None;
  }

  /**
   * The two list comprehensions and the flag assignment, on the package's
   * resource list in place.
   */
  method RecommendPreview(resources: array<Resource>)
    modifies resources
    ensures resources[..] == Recommended(old(resources[..]))
  {
    var verified := ScanFor(resources, IsVerifiedWms);
    var chosen := verified;
    if verified.None? {
      chosen := ScanFor(resources, IsWms);
    }
    if chosen.Some? {
      resources[chosen.value] := resources[chosen.value].(recommended := true);
    }
  }

  // ---------------------------------------------------------------------
  // Extras copied from the value dictionary
  // ---------------------------------------------------------------------

  /** The names whose values the INSPIRE import copies into the extras, in order. */
  const ExtrasNames: seq<string> := [
    "bbox-east-long", "bbox-north-lat", "bbox-south-lat", "bbox-west-long",
    "spatial-reference-system", "guid",
    "dataset-reference-date", "resource-type", "metadata-language", "metadata-date",
    "coupled-resource", "contact-email", "frequency-of-update", "spatial-data-service-type"
  ]

  /** The extras after the copy, or the `KeyError` of the first name the dictionary lacks. */
  datatype Copy = Copied(extras: map<string, FieldMapper.Value>) | MissingKey(key: string)

  /** `extras[name] = gemini_values[name]` for each name in turn, on top of `extras`. */
  function CopyExtras(names: seq<string>, values: map<string, FieldMapper.Value>,
                      extras: map<string, FieldMapper.Value>): Copy
    decreases |names|
  {
    if |names| == 0 then Copied(extras)
    else if names[0] !in values then MissingKey(names[0])
    else CopyExtras(names[1..], values, extras[names[0] := values[names[0]]])
  }

  /**
   * The copy raises exactly when some name is missing, and then names the
   * first missing one; otherwise every name is copied with its value and
   * the extras already set are kept.
   */
  lemma {:induction false} CopyExtrasSpec(names: seq<string>, values: map<string, FieldMapper.Value>,
                                          extras: map<string, FieldMapper.Value>)
    ensures var r := CopyExtras(names, values, extras);
      && (r.MissingKey? <==> exists i | 0 <= i < |names| :: names[i] !in values)
      && (r.MissingKey? ==> exists i | 0 <= i < |names| ::
            names[i] == r.key && r.key !in values && forall j | 0 <= j < i :: names[j] in values)
      && (r.Copied? ==> r.extras.Keys == extras.Keys + (set n | n in names))
      && (r.Copied? ==> forall i | 0 <= i < |names| :: names[i] in values && r.extras[names[i]] == values[names[i]])
      && (r.Copied? ==> forall k | k in extras && k !in names :: r.extras[k] == extras[k])
    decreases |names|
  {
    if |names| > 0 && names[0] in values {
      var rest := names[1..];
      var next := extras[names[0] := values[names[0]]];
      CopyExtrasSpec(rest, values, next);
      assert forall i | 0 <= i < |rest| :: rest[i] == names[i + 1];
      assert forall n | n in names :: n == names[0] || n in rest;
      var r := CopyExtras(names, values, extras);
      assert r == CopyExtras(rest, values, next);
      if r.MissingKey? {
        var i :| 0 <= i < |rest| && rest[i] == r.key && r.key !in values && forall j | 0 <= j < i :: rest[j] in values;
        assert names[i + 1] == r.key;
      } else {
        forall i | 0 <= i < |names|
          ensures names[i] in values && r.extras[names[i]] == values[names[i]]
        {
          if i > 0 {
            assert names[i] == rest[i - 1];
          }
        }
      }
    }
  }

  /** The first missing name is the one the copy raises on. */
  lemma {:induction false} CopyExtrasStops(names: seq<string>, values: map<string, FieldMapper.Value>,
                                           extras: map<string, FieldMapper.Value>, i: nat)
    requires i < |names| && names[i] !in values && forall j | 0 <= j < i :: names[j] in values
    ensures CopyExtras(names, values, extras) == MissingKey(names[i])
    decreases i
  {
    if i > 0 {
      CopyExtrasStops(names[1..], values, extras[names[0] := values[names[0]]], i - 1);
    }
  }

  // ---------------------------------------------------------------------
  // Licence URL
  // ---------------------------------------------------------------------

  /**
   * `extras['licence_url']` on the GEMINI path: set, to what
   * `_extract_first_license_url` returns, only when the use-constraints list
   * is not empty and that result is truthy.
   */
  function LicenceUrlExtra(licence: seq<string>, isUrl: string -> bool): (r: Option<string>)
  {
    if |licence| > 0 then
      var u := LegalConstraints.FirstUrl(licence, isUrl);
      if u.Some? && u.value != "" then u else None
    else None
  }

  /**
   * Since an empty string has no scheme, the extra is set exactly when some
   * constraint is URL-shaped, and then to the first such constraint.
   */
  lemma LicenceUrlExtraSpec(licence: seq<string>, isUrl: string -> bool)
    requires !isUrl("")
    ensures LicenceUrlExtra(licence, isUrl).Some? <==> exists i | 0 <= i < |licence| :: isUrl(licence[i])
    ensures LicenceUrlExtra(licence, isUrl).Some? ==> exists i | 0 <= i < |licence| ::
      licence[i] == LicenceUrlExtra(licence, isUrl).value && isUrl(licence[i])
      && forall j | 0 <= j < i :: !isUrl(licence[j])
  {
    var u := LegalConstraints.FirstUrl(licence, isUrl);
    if u.Some? {
      assert u.value != "";
    }
  }
}
