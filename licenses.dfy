/**
 * `translate_license_data` of ckanext/spatial/lib/licenses.py: every
 * constraint list is summed up in the `other` text, a URL-shaped
 * other-constraint becomes the license URL, an other-constraint that is a
 * key of `constraint_translation` sets the license id (the last one wins),
 * a known id gets its canonical URL, and a `None` id drops the record. The
 * caller's lists are only read.
 */
module Licenses {
  import opened PyText
  import opened LegalConstraints

  /** `code_translation`: German names of the `MD_RestrictionCode` values. */
  const CodeTranslation: map<string, string> := map[
    "copyright" := "Urheberrecht",
    "patent" := "Patent",
    "patentPending" := "Patent angemeldet",
    "patent pending" := "Patent angemeldet",
    "trademark" := "Warenzeichen",
    "license" := "Lizenz",
    "intellectualPropertyRights" := "geistiges Eigentum",
    "intellectual property rights" := "geistiges Eigentum",
    "restricted" := "beschränkter Zugang",
    "otherRestrictions" := "andere Beschränkung"]

  /** `constraint_translation`: other-constraints that name a license. */
  const ConstraintTranslation: map<string, Option<string>> := map[
    "CC-BY 3.0" := Some("cc-by"),
    "keine Angaben" := None,
    "conditions unknown" := None,
    "Keine" := Some("cc-zero"),
    "none" := Some("cc-zero"),
    "free" := Some("cc-zero"),
    "keine" := Some("cc-zero"),
    "no conditions apply" := Some("cc-zero")]

  /** `urls`: the canonical URL of each license id that has one. */
  const Urls: map<string, string> := map[
    "cc-by" := "http://creativecommons.org/license/by/3.0/de",
    "cc-zero" := "http://creativecommons.org/publicdomain/zero/1.0/deed.de"]

  const DefaultId: Option<string> := Some("other-closed")

  /** The words this variant writes into `other`. */
  const TextWording := Wording("Nutzungsbeschränkungen: ", "Weitere Beschränkungen: ", CodeTranslation,
                               ConstraintTranslation.Keys, false)

  /**
   * `for constraint in others: if constraint in constraint_translation:
   * license_id = constraint_translation[constraint]`: the entry of the last
   * other-constraint that is a key, or `id` when none is.
   */
  function IdAfter(id: Option<string>, others: seq<string>): (r: Option<string>)
    ensures (forall i | 0 <= i < |others| :: others[i] !in ConstraintTranslation) ==> r == id
    ensures forall i | 0 <= i < |others| && others[i] in ConstraintTranslation ::
      (forall j | i < j < |others| :: others[j] !in ConstraintTranslation) ==> r == ConstraintTranslation[others[i]]
    decreases |others|
  {
    if |others| == 0 then id
    else
      var init := others[..|others| - 1];
      assert forall j | 0 <= j < |init| :: init[j] == others[j];
      var c := others[|others| - 1];
      if c in ConstraintTranslation then ConstraintTranslation[c] else IdAfter(id, init)
  }

  /**
   * The id loop as it runs. The `else` branch still appends to a local
   * `other` that was stored in the record before the loop, so what it
   * appends never reaches the result.
   */
  method ApplyTranslations(id: Option<string>, others: seq<string>, other: string) returns (r: Option<string>, unused: string)
    ensures r == IdAfter(id, others)
  {
    r, unused := id, other;
    var i := 0;
    while i < |others|
      invariant 0 <= i <= |others|
      invariant r == IdAfter(id, others[..i])
    {
      assert others[..i + 1][..i] == others[..i];
      if others[i] in ConstraintTranslation {
        r := ConstraintTranslation[others[i]];
      } else {
        unused := unused + others[i];
      }
      i := i + 1;
    }
    assert others[..|others|] == others;
  }

  /** The translation of the four lists; `isUrl` is `urlparse`'s verdict (a scheme and a network location). */
  function TranslationOf(limitations: seq<string>, uses: seq<string>, access: seq<string>, others: seq<string>,
                         isUrl: string -> bool): (r: Result<Option<TermsOfUse>>)
    ensures r.Err? ==> r.failure.KeyError?
    ensures r.Ok? && r.value.Some? ==> r.value.value.licenseId.Some? && r.value.value.licenseUrl.Some?
  {
    match OtherOf(TextWording, limitations, uses, access, others)
    case Err(f) => Err(f)
    case Ok(other) =>
      var id := IdAfter(DefaultId, others);
      var url := if id.Some? && id.value in Urls then Some(Urls[id.value]) else UrlAfter(Some(""), others, isUrl);
      if id.None? then Ok(None) else Ok(Some(TermsOfUse(id, url, Some(other))))
  }

  /** `translate_license_data(gemini)`; it has no `modifies` clause: the caller's lists are not changed. */
  method TranslateLicenseData(gemini: Gemini, isUrl: string -> bool) returns (r: Result<Option<TermsOfUse>>)
    ensures r == TranslationOf(gemini.useLimitations, gemini.useConstraints, gemini.accessConstraints,
                               gemini.otherConstraints, isUrl)
  {
    var assembled := AssembleOther(TextWording, gemini.useLimitations, gemini.useConstraints,
                                   gemini.accessConstraints, gemini.otherConstraints);
    if assembled.Err? {
      return Err(assembled.failure);
    }
    var other := assembled.value;
    var licenseUrl := ScanUrls(Some(""), gemini.otherConstraints, isUrl);
    var licenseId, _ := ApplyTranslations(DefaultId, gemini.otherConstraints, other);
    if licenseId.Some? && licenseId.value in Urls {
      licenseUrl := Some(Urls[licenseId.value]);
    }
    if licenseId.None? {
      return Ok(None);
    }
    r := Ok(Some(TermsOfUse(licenseId, licenseUrl, Some(other))));
  }

  /** No key of `constraint_translation` is a key of `code_translation`. */
  lemma TablesDisjoint()
    ensures forall k | k in ConstraintTranslation :: k !in CodeTranslation
  {
  }

  /**
   * The translation raises `KeyError` exactly when a use-constraint is not a
   * restriction code, or an access-constraint is a key of
   * `constraint_translation`: that key is then looked up in
   * `code_translation`, which never holds it.
   */
  lemma FailsExactly(limitations: seq<string>, uses: seq<string>, access: seq<string>, others: seq<string>,
                     isUrl: string -> bool)
    ensures TranslationOf(limitations, uses, access, others, isUrl).Err? <==>
      (exists i | 0 <= i < |uses| :: uses[i] !in CodeTranslation)
      || (exists i | 0 <= i < |access| :: access[i] in ConstraintTranslation)
  {
    TablesDisjoint();
  }

  /**
   * The license id is the entry of the last other-constraint that is a key of
   * `constraint_translation`, `'other-closed'` when none is; a `None` entry
   * drops the record.
   */
  lemma LicenseIdOf(limitations: seq<string>, uses: seq<string>, access: seq<string>, others: seq<string>,
                    isUrl: string -> bool)
    requires TranslationOf(limitations, uses, access, others, isUrl).Ok?
    ensures (forall i | 0 <= i < |others| :: others[i] !in ConstraintTranslation) ==>
      TranslationOf(limitations, uses, access, others, isUrl).value.Some?
      && TranslationOf(limitations, uses, access, others, isUrl).value.value.licenseId == DefaultId
    ensures forall i | 0 <= i < |others| && others[i] in ConstraintTranslation ::
      (forall j | i < j < |others| :: others[j] !in ConstraintTranslation) ==>
        var r := TranslationOf(limitations, uses, access, others, isUrl).value;
        (r.None? <==> ConstraintTranslation[others[i]].None?)
        && (r.Some? ==> r.value.licenseId == ConstraintTranslation[others[i]])
  {
  }

  /**
   * The license URL of a kept record: the canonical URL of its id if it has
   * one, otherwise the last other-constraint when any of them is URL-shaped,
   * otherwise `''`.
   */
  lemma LicenseUrlOf(limitations: seq<string>, uses: seq<string>, access: seq<string>, others: seq<string>,
                     isUrl: string -> bool)
    requires !isUrl("")
    requires TranslationOf(limitations, uses, access, others, isUrl).Ok?
    requires TranslationOf(limitations, uses, access, others, isUrl).value.Some?
    ensures var t := TranslationOf(limitations, uses, access, others, isUrl).value.value;
      t.licenseUrl ==
        if t.licenseId.value in Urls then Some(Urls[t.licenseId.value])
        else if exists i | 0 <= i < |others| :: isUrl(others[i]) then Some(others[|others| - 1])
        else Some("")
  {
  }

  /** The source's first test: all four lists empty. */
  lemma EmptyListsTest(isUrl: string -> bool)
    ensures TranslationOf([], [], [], [], isUrl) == Ok(Some(TermsOfUse(DefaultId, Some(""), Some(""))))
  {
    OtherEmpty(TextWording);
  }

  /** The source's second test: a single URL-shaped other-constraint is both the URL and `other`. */
  lemma SingleUrlTest(isUrl: string -> bool)
    requires isUrl("http://www.example.com")
    ensures TranslationOf([], [], [], ["http://www.example.com"], isUrl)
      == Ok(Some(TermsOfUse(DefaultId, Some("http://www.example.com"), Some("http://www.example.com"))))
  {
    var others := ["http://www.example.com"];
    assert FirstUrl(others, isUrl) == Some("http://www.example.com");
    assert Spaced(others) == "http://www.example.com ";
    assert CodeNames(CodeTranslation, []) == Ok("");
    assert AccessNames(TextWording, []) == Ok("");
    assert LimitsPart(TextWording, [], []) == "";
    assert TailPart(TextWording, "", [], "", others) == "http://www.example.com ";
    assert DropLast("http://www.example.com ") == "http://www.example.com";
    assert OtherOf(TextWording, [], [], [], others) == Ok("http://www.example.com");
    assert UrlAfter(Some(""), others, isUrl) == Some("http://www.example.com");
    assert IdAfter(DefaultId, others) == DefaultId;
  }

  /** The source's third test: a single use-limitation after the heading. */
  lemma LimitationTest(isUrl: string -> bool)
    ensures TranslationOf(["Nur im Maßstab 1:50.000"], [], [], [], isUrl)
      == Ok(Some(TermsOfUse(DefaultId, Some(""), Some("Nutzungsbeschränkungen: " + "Nur im Maßstab 1:50.000"))))
  {
    var limitations := ["Nur im Maßstab 1:50.000"];
    assert Spaced(limitations) == "Nur im Maßstab 1:50.000 ";
    assert CodeNames(CodeTranslation, []) == Ok("");
    assert AccessNames(TextWording, []) == Ok("");
    var raw := LimitsPart(TextWording, limitations, []) + TailPart(TextWording, "", [], "", []);
    assert raw == "Nutzungsbeschränkungen: " + "Nur im Maßstab 1:50.000 ";
    DropLastAppend("Nutzungsbeschränkungen: ", "Nur im Maßstab 1:50.000 ");
    assert DropLast("Nur im Maßstab 1:50.000 ") == "Nur im Maßstab 1:50.000";
    assert OtherOf(TextWording, limitations, [], [], []) == Ok("Nutzungsbeschränkungen: " + "Nur im Maßstab 1:50.000");
    assert IdAfter(DefaultId, []) == DefaultId && "other-closed" !in Urls;
    assert UrlAfter(Some(""), [], isUrl) == Some("");
  }

  /** The `other` text of the source's fourth test. */
  lemma LicenseUrlTestOther()
    ensures OtherOf(TextWording, ["Nur im Maßstab 1:50.000"], ["copyright"], [], ["http://example-license.com/"])
      == Ok("Nutzungsbeschränkungen: " + "Nur im Maßstab 1:50.000 " + "Urheberrecht " + "http://example-license.com/")
  {
    var limitations, uses, others := ["Nur im Maßstab 1:50.000"], ["copyright"], ["http://example-license.com/"];
    assert Spaced(limitations) == "Nur im Maßstab 1:50.000 ";
    assert Spaced(others) == "http://example-license.com/ ";
    assert uses[..0] == [];
    assert CodeNames(CodeTranslation, []) == Ok("");
    CopyrightName();
    assert AccessNames(TextWording, []) == Ok("");
    var front := "Nutzungsbeschränkungen: " + "Nur im Maßstab 1:50.000 " + "Urheberrecht ";
    assert LimitsPart(TextWording, limitations, uses) + TailPart(TextWording, "Urheberrecht ", [], "", others)
      == front + "http://example-license.com/ ";
    DropLastAppend(front, "http://example-license.com/ ");
    assert DropLast("http://example-license.com/ ") == "http://example-license.com/";
  }

  lemma CopyrightName()
    ensures CodeNames(CodeTranslation, ["copyright"]) == Ok("Urheberrecht ")
  {
    var uses := ["copyright"];
    assert "copyright" in CodeTranslation && CodeTranslation["copyright"] == "Urheberrecht";
    assert uses[..0] == [];
    assert CodeNames(CodeTranslation, []) == Ok("");
    assert CodeNames(CodeTranslation, uses) == Ok("" + "Urheberrecht" + " ");
    assert "" + "Urheberrecht" + " " == "Urheberrecht ";
  }

  /** The source's fourth test: a limitation, a use-constraint and a license URL. */
  lemma LicenseUrlTest(isUrl: string -> bool)
    requires isUrl("http://example-license.com/")
    ensures TranslationOf(["Nur im Maßstab 1:50.000"], ["copyright"], [], ["http://example-license.com/"], isUrl)
      == Ok(Some(TermsOfUse(DefaultId, Some("http://example-license.com/"),
                            Some("Nutzungsbeschränkungen: " + "Nur im Maßstab 1:50.000 " + "Urheberrecht "
                                 + "http://example-license.com/"))))
  {
    var others := ["http://example-license.com/"];
    LicenseUrlTestOther();
    assert FirstUrl(others, isUrl) == Some("http://example-license.com/");
    assert UrlAfter(Some(""), others, isUrl) == Some("http://example-license.com/");
    assert IdAfter(DefaultId, others) == DefaultId && "other-closed" !in Urls;
  }

  /** An access-constraint outside `constraint_translation`, `'otherRestrictions'` included, is appended as it is. */
  lemma OtherRestrictionsAppended(access: seq<string>)
    ensures AccessNames(TextWording, access).Ok? ==>
      AccessNames(TextWording, access + ["otherRestrictions"]) == Ok(AccessNames(TextWording, access).value + "otherRestrictions")
  {
    assert (access + ["otherRestrictions"])[..|access|] == access;
  }
}
