/**
 * `translate_license_data` of ckanext/spatial/lib/license_map.py, the
 * translation the harvester calls (`handle_licenses`,
 * ckanext/spatial/harvesters.py:613-614). It reads only the
 * use-limitations: every limitation containing a key of
 * `constraint_translation` sets the license id and is removed from the
 * caller's list; an attribution `Namensnennung: ...` in the matched
 * limitation becomes `other`; a known id gets its canonical URL; and a
 * record with neither URL nor `other` is dropped (`None`).
 */
module LicenseMap {
  import opened PyText
  import opened LegalConstraints

  /** `constraint_translation`: words looked for in the use-limitations and the license ids they stand for. */
  const ConstraintTranslation: map<string, Option<string>> := map[
    "CC-BY 3.0" := Some("cc-by"),
    "keine Angaben" := None,
    "conditions unknown" := None,
    "Keine" := Some("cc-zero"),
    "none" := Some("cc-zero"),
    "free" := Some("cc-zero"),
    "keine" := Some("cc-zero"),
    "no conditions apply" := Some("cc-zero"),
    "CC BY-SA" := Some("cc-by-sa"),
    "Datenlizenz Deutschland" := Some("dl-de-by-1.0")]

  /** `urls`: the canonical URL of each license id that has one. */
  const Urls: map<string, string> := map[
    "cc-by" := "http://creativecommons.org/license/by/3.0/de",
    "cc-zero" := "http://creativecommons.org/publicdomain/zero/1.0/deed.de",
    "cc-by-sa" := "http://creativecommons.org/licenses/by-sa/3.0/de",
    "dl-de-by-1.0" := "http://www.daten-deutschland.de/bibliothek/Datenlizenz_Deutschland/dl-de-by-1.0"]

  const DefaultId: Option<string> := Some("other-closed")

  /** The attribution marker. */
  const Marker := "Namensnennung:"

  /**
   * `name` for a matched limitation: the marker followed by the text
   * between its first and second occurrence, with double quotes removed;
   * `None` when the limitation has no marker.
   */
  function Attribution(c: string): (r: Option<string>)
    ensures r.Some? <==> Contains(c, Marker)
    ensures r.Some? ==> |Marker| <= |r.value| && r.value[..|Marker|] == Marker && '"' !in r.value
    ensures r.Some? ==> r.value[|Marker|..] == Without(SplitSecond(c, Marker), '"')
  {
    if Contains(c, Marker) then
      var name := SplitSecond(c, Marker);
      ReplaceCharDeletes(name, '"');
      assert '"' !in Marker;
      Some(Marker + ReplaceAll(name, "\"", ""))
    else
      None
  }

  /** The scan of the use-limitations, starting from the default id. */
  function ScanOf(limitations: seq<string>, order: seq<string>): (r: Result<ScanState>)
    requires IsKeyOrder(order, ConstraintTranslation)
  {
    LimitationScan(ScanState(limitations, DefaultId, None), 0, order, ConstraintTranslation)
  }

  /** `urls.get(license_id)`: the canonical URL of a known id. */
  function CanonicalUrl(id: Option<string>): (r: Option<string>)
    ensures r.Some? <==> id.Some? && id.value in Urls
  {
    if id.Some? && id.value in Urls then Some(Urls[id.value]) else None
  }

  /** The record after the scan: the canonical URL, the attribution, and the drop rule. */
  function TermsOf(st: ScanState): (r: Option<TermsOfUse>)
  {
    var url := CanonicalUrl(st.licenseId);
    var other := if st.matched.Some? then Attribution(st.matched.value) else None;
    if url.None? && other.None? then None else Some(TermsOfUse(st.licenseId, url, other))
  }

  /**
   * The translation of a document whose use-limitations are `limitations`,
   * with `order` the order in which `constraint_translation.keys()` yields
   * its keys.
   */
  function LicenseOf(limitations: seq<string>, order: seq<string>): (r: Result<Option<TermsOfUse>>)
    requires IsKeyOrder(order, ConstraintTranslation)
    ensures r.Err? ==> r.failure == ValueError
    ensures r.Ok? && r.value.Some? ==>
      r.value.value.licenseUrl.Some? || r.value.value.other.Some?
  {
    match ScanOf(limitations, order)
    case Err(f) => Err(f)
    case Ok(st) => Ok(TermsOf(st))
  }

  /**
   * `translate_license_data(gemini)`: only the use-limitations are read,
   * the matched ones are removed from the caller's list, and the other
   * three lists are left as they are.
   */
  method TranslateLicenseData(gemini: Gemini, order: seq<string>) returns (r: Result<Option<TermsOfUse>>)
    requires IsKeyOrder(order, ConstraintTranslation)
    modifies gemini
    ensures r == LicenseOf(old(gemini.useLimitations), order)
    ensures r.Ok? ==> gemini.useLimitations == ScanOf(old(gemini.useLimitations), order).value.items
    ensures gemini.useConstraints == old(gemini.useConstraints)
    ensures gemini.accessConstraints == old(gemini.accessConstraints)
    ensures gemini.otherConstraints == old(gemini.otherConstraints)
  {
    var scan := gemini.RemoveMatchedLimitations(order, ConstraintTranslation, DefaultId);
    if scan.Err? {
      return Err(scan.failure);
    }
    var licenseId := scan.value.licenseId;
    var other: Option<string> := None;
    if scan.value.matched.Some? {
      other := Attribution(scan.value.matched.value);
    }
    var licenseUrl: Option<string> := None;
    if licenseId.Some? && licenseId.value in Urls {
      licenseUrl := Some(Urls[licenseId.value]);
    }
    assert licenseUrl == CanonicalUrl(licenseId);
    if licenseUrl.None? && other.None? {
      return Ok(None);
    }
    r := Ok(Some(TermsOfUse(licenseId, licenseUrl, other)));
  }

  /**
   * When no use-limitation contains a table word (in particular when there
   * are none), nothing is removed and the record is dropped: the default id
   * `'other-closed'` has no URL and `other` stays `None`.
   */
  lemma NoMatchDropped(limitations: seq<string>, order: seq<string>)
    requires IsKeyOrder(order, ConstraintTranslation)
    requires forall i, w | 0 <= i < |limitations| && w in ConstraintTranslation :: !Contains(limitations[i], w)
    ensures ScanOf(limitations, order) == Ok(ScanState(limitations, DefaultId, None))
    ensures LicenseOf(limitations, order) == Ok(None)
  {
    ScanNoMatch(ScanState(limitations, DefaultId, None), 0, order, ConstraintTranslation);
  }

  /**
   * A record that is kept has the id of a table word contained in one of the
   * use-limitations: the default id never survives.
   */
  lemma KeptRecordExplained(limitations: seq<string>, order: seq<string>)
    requires IsKeyOrder(order, ConstraintTranslation)
    ensures LicenseOf(limitations, order).Ok? && LicenseOf(limitations, order).value.Some? ==>
      var t := LicenseOf(limitations, order).value.value;
      exists i, w | 0 <= i < |limitations| && w in ConstraintTranslation ::
        Contains(limitations[i], w) && t.licenseId == ConstraintTranslation[w]
  {
    WholeScan(limitations, DefaultId, order, ConstraintTranslation);
    var scan := ScanOf(limitations, order);
    if scan.Ok? && TermsOf(scan.value).Some? {
      var st := scan.value;
      assert st.matched.Some?;
      var c := st.matched.value;
      var i :| 0 <= i < |limitations| && limitations[i] == c;
      var w :| w in ConstraintTranslation && Contains(c, w) && st.licenseId == ConstraintTranslation[w];
    }
  }

  /**
   * Every field of the translation, for any use-limitations that do not
   * raise: a kept record's URL is the canonical URL of its id, its `other`
   * is the attribution of one of the use-limitations, and the record is
   * dropped exactly when the scan's id has no URL and the matched
   * limitation (if any) has no attribution.
   */
  lemma LicenseOfFields(limitations: seq<string>, order: seq<string>)
    requires IsKeyOrder(order, ConstraintTranslation)
    ensures LicenseOf(limitations, order).Ok? <==> ScanOf(limitations, order).Ok?
    ensures LicenseOf(limitations, order).Ok? && LicenseOf(limitations, order).value.Some? ==>
      LicenseOf(limitations, order).value.value.licenseUrl == CanonicalUrl(LicenseOf(limitations, order).value.value.licenseId)
    ensures LicenseOf(limitations, order).Ok? && LicenseOf(limitations, order).value.Some? ==>
      LicenseOf(limitations, order).value.value.other.None?
      || exists i | 0 <= i < |limitations| :: LicenseOf(limitations, order).value.value.other == Attribution(limitations[i])
    ensures ScanOf(limitations, order).Ok? ==>
      (LicenseOf(limitations, order).value.None? <==>
        CanonicalUrl(ScanOf(limitations, order).value.licenseId).None?
        && (ScanOf(limitations, order).value.matched.None? || Attribution(ScanOf(limitations, order).value.matched.value).None?))
  {
    WholeScan(limitations, DefaultId, order, ConstraintTranslation);
    var scan := ScanOf(limitations, order);
    if scan.Ok? && scan.value.matched.Some? {
      var c := scan.value.matched.value;
      assert c in limitations;
      var i :| 0 <= i < |limitations| && limitations[i] == c;
      assert TermsOf(scan.value).Some? ==> TermsOf(scan.value).value.other == Attribution(limitations[i]);
    }
  }

  /** Only limitations that contain a table word are removed from the caller's list, and none is added. */
  lemma UnmatchedKept(limitations: seq<string>, order: seq<string>, x: string)
    requires IsKeyOrder(order, ConstraintTranslation)
    requires forall w | w in ConstraintTranslation :: !Contains(x, w)
    ensures ScanOf(limitations, order).Ok? ==>
      var rest := ScanOf(limitations, order).value.items;
      multiset(rest)[x] == multiset(limitations)[x] && multiset(rest) <= multiset(limitations)
  {
    ScanKeepsUnmatched(ScanState(limitations, DefaultId, None), 0, order, ConstraintTranslation, x);
  }

  /**
   * A single use-limitation containing exactly one table word: the id is that
   * word's, the limitation is gone from the caller's list, and `other` is its
   * attribution.
   */
  lemma SingleMatch(c: string, order: seq<string>, w: string)
    requires IsKeyOrder(order, ConstraintTranslation)
    requires w in ConstraintTranslation && Contains(c, w)
    requires forall v | v in ConstraintTranslation && v != w :: !Contains(c, v)
    ensures ScanOf([c], order) == Ok(ScanState([], ConstraintTranslation[w], Some(c)))
    ensures LicenseOf([c], order) == Ok(TermsOf(ScanState([], ConstraintTranslation[w], Some(c))))
  {
    var m := KeyPosition(order, ConstraintTranslation, w);
    SingleLimitation(c, DefaultId, order, ConstraintTranslation, m);
  }

  /**
   * Removing the matched limitation while iterating skips the next one: of
   * two use-limitations, the second stays in the caller's list and never
   * affects the result, whatever it contains.
   */
  lemma SecondSkipped(c1: string, c2: string, order: seq<string>, w: string)
    requires IsKeyOrder(order, ConstraintTranslation)
    requires w in ConstraintTranslation && Contains(c1, w) && c1 != c2
    requires forall v | v in ConstraintTranslation && v != w :: !Contains(c1, v)
    ensures ScanOf([c1, c2], order) == Ok(ScanState([c2], ConstraintTranslation[w], Some(c1)))
    ensures LicenseOf([c1, c2], order) == Ok(TermsOf(ScanState([c2], ConstraintTranslation[w], Some(c1))))
  {
    var m := KeyPosition(order, ConstraintTranslation, w);
    SkipsNext(c1, c2, DefaultId, order, ConstraintTranslation, m);
  }

  /** `'keine'` occurs wherever `'keine Angaben'` does. */
  lemma KeineInKeineAngaben(c: string)
    requires Contains(c, "keine Angaben")
    ensures Contains(c, "keine")
  {
    var i :| 0 <= i <= |c| - |"keine Angaben"| && OccursAt(c, "keine Angaben", i);
    assert c[i..i + 5] == c[i..i + 13][..5];
    assert OccursAt(c, "keine", i);
  }

  /**
   * A first use-limitation held once that contains `'keine Angaben'` also
   * contains the word `'keine'`: the second `remove` of it raises
   * `ValueError`, whatever the key order.
   */
  lemma KeineAngabenRaises(limitations: seq<string>, order: seq<string>)
    requires IsKeyOrder(order, ConstraintTranslation)
    requires |limitations| > 0 && Contains(limitations[0], "keine Angaben")
    requires multiset(limitations)[limitations[0]] == 1
    ensures LicenseOf(limitations, order) == Err(ValueError)
  {
    KeineInKeineAngaben(limitations[0]);
    var a := KeyPosition(order, ConstraintTranslation, "keine");
    var b := KeyPosition(order, ConstraintTranslation, "keine Angaben");
    var s := ScanState(limitations, DefaultId, None);
    if a < b {
      ScanRaises(s, 0, order, ConstraintTranslation, a, b);
    } else {
      ScanRaises(s, 0, order, ConstraintTranslation, b, a);
    }
  }

  /**
   * The shape of the source's own test: one use-limitation whose only table
   * word is `'Datenlizenz Deutschland'` gives id `dl-de-by-1.0`, its canonical
   * URL, and the limitation's attribution as `other`; the caller's list is
   * left empty.
   */
  lemma DatenlizenzLimitation(c: string, order: seq<string>)
    requires IsKeyOrder(order, ConstraintTranslation)
    requires Contains(c, "Datenlizenz Deutschland")
    requires forall v | v in ConstraintTranslation && v != "Datenlizenz Deutschland" :: !Contains(c, v)
    ensures ScanOf([c], order).Ok? && ScanOf([c], order).value.items == []
    ensures LicenseOf([c], order) == Ok(Some(TermsOfUse(
      Some("dl-de-by-1.0"),
      Some("http://www.daten-deutschland.de/bibliothek/Datenlizenz_Deutschland/dl-de-by-1.0"),
      Attribution(c))))
  {
    SingleMatch(c, order, "Datenlizenz Deutschland");
  }
}
