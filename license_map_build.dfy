/**
 * `translate_license_data` of the build copy
 * lib.linux-i686-2.7/ckanext/spatial/lib/license_map.py, a hybrid of the
 * other two: the use-limitations are scanned for table words and matched
 * ones are removed from the caller's list, then the remaining lists are
 * summed up in `other` (an access-constraint `'otherRestrictions'` outside
 * the table is left out), a URL-shaped other-constraint gives the license
 * URL, and an other-constraint that is a table key changes the id only when
 * the id is empty, which it never is. Its German literals are garbled in
 * the source ("Nutzungsbeschräungen"), and the model keeps them as written.
 */
module LicenseMapBuild {
  import opened PyText
  import opened LegalConstraints

  /** `code_translation`, with the literals as this copy spells them. */
  const CodeTranslation: map<string, string> := map[
    "copyright" := "Urheberrecht",
    "patent" := "Patent",
    "patentPending" := "Patent angemeldet",
    "patent pending" := "Patent angemeldet",
    "trademark" := "Warenzeichen",
    "license" := "Lizenz",
    "intellectualPropertyRights" := "geistiges Eigentum",
    "intellectual property rights" := "geistiges Eigentum",
    "restricted" := "beschräter Zugang",
    "otherRestrictions" := "andere Beschräung"]

  /** `constraint_translation`. */
  const ConstraintTranslation: map<string, Option<string>> := map[
    "CC-BY 3.0" := Some("cc-by"),
    "keine Angaben" := None,
    "conditions unknown" := None,
    "Keine" := Some("cc-zero"),
    "none" := Some("cc-zero"),
    "free" := Some("cc-zero"),
    "keine" := Some("cc-zero"),
    "no conditions apply" := Some("cc-zero"),
    "CC BY-SA" := Some("cc-by-sa")]

  /** `urls`. */
  const Urls: map<string, string> := map[
    "cc-by" := "http://creativecommons.org/license/by/3.0/de",
    "cc-zero" := "http://creativecommons.org/publicdomain/zero/1.0/deed.de",
    "cc-by-sa" := "http://creativecommons.org/licenses/by-sa/3.0/de"]

  const DefaultId: Option<string> := Some("other-closed")

  /** The words this copy writes into `other`. */
  const TextWording := Wording("Nutzungsbeschräungen: ", "Weitere Beschräungen: ", CodeTranslation,
                               ConstraintTranslation.Keys, true)

  /** The scan of the use-limitations, starting from the default id. */
  function ScanOf(limitations: seq<string>, order: seq<string>): (r: Result<ScanState>)
    requires IsKeyOrder(order, ConstraintTranslation)
  {
    LimitationScan(ScanState(limitations, DefaultId, None), 0, order, ConstraintTranslation)
  }

  /**
   * `for constraint in others: if constraint in constraint_translation: if
   * not (len(license_id) > 0): license_id = ...`: `len(None)` is the
   * `TypeError`, and a non-empty id is never replaced.
   */
  function IdAfter(id: Option<string>, others: seq<string>): (r: Result<Option<string>>)
    ensures id.Some? && |id.value| > 0 ==> r == Ok(id)
    ensures id.None? ==> (r.Err? <==> exists i | 0 <= i < |others| :: others[i] in ConstraintTranslation)
    ensures id.None? && r.Ok? ==> r.value.None?
    ensures r.Err? ==> r.failure == TypeError
    decreases |others|
  {
    if |others| == 0 then Ok(id)
    else
      var init := others[..|others| - 1];
      assert forall j | 0 <= j < |init| :: init[j] == others[j];
      match IdAfter(id, init)
      case Err(f) => Err(f)
      case Ok(prior) =>
        var c := others[|others| - 1];
        if c !in ConstraintTranslation then Ok(prior)
        else if prior.None? then Err(TypeError)
        else if |prior.value| > 0 then Ok(prior)
        else Ok(ConstraintTranslation[c])
  }

  /** The id loop as it runs; the `else` branch appends to a local `other` that no longer reaches the result. */
  method ApplyTranslations(id: Option<string>, others: seq<string>, other: string)
    returns (r: Result<Option<string>>, unused: string)
    ensures r == IdAfter(id, others)
  {
    var current := id;
    unused := other;
    var i := 0;
    while i < |others|
      invariant 0 <= i <= |others|
      invariant IdAfter(id, others[..i]) == Ok(current)
    {
      assert others[..i + 1][..i] == others[..i];
      var c := others[i];
      if c in ConstraintTranslation {
        if current.None? {
          IdAfterStops(id, others, i + 1);
          return Err(TypeError), unused;
        }
        if !(|current.value| > 0) {
          current := ConstraintTranslation[c];
        }
      } else {
        unused := unused + c;
      }
      i := i + 1;
    }
    assert others[..|others|] == others;
    r := Ok(current);
  }

  lemma {:induction false} IdAfterStops(id: Option<string>, others: seq<string>, k: nat)
    requires k <= |others| && IdAfter(id, others[..k]).Err?
    ensures IdAfter(id, others) == IdAfter(id, others[..k])
    decreases |others| - k
  {
    if k == |others| {
      assert others[..k] == others;
    } else {
      assert others[..k + 1][..k] == others[..k];
      IdAfterStops(id, others, k + 1);
    }
  }

  /** The translation; `order` is the key order of `constraint_translation`, `isUrl` is `urlparse`'s verdict. */
  function TranslationOf(limitations: seq<string>, uses: seq<string>, access: seq<string>, others: seq<string>,
                         order: seq<string>, isUrl: string -> bool): (r: Result<Option<TermsOfUse>>)
    requires IsKeyOrder(order, ConstraintTranslation)
    ensures r.Ok? && r.value.Some? ==> r.value.value.licenseId.Some? && r.value.value.licenseUrl.Some?
  {
    match ScanOf(limitations, order)
    case Err(f) => Err(f)
    case Ok(st) =>
      match OtherOf(TextWording, st.items, uses, access, others)
      case Err(f) => Err(f)
      case Ok(other) =>
        match IdAfter(st.licenseId, others)
        case Err(f) => Err(f)
        case Ok(id) =>
          var url := if id.Some? && id.value in Urls then Some(Urls[id.value]) else UrlAfter(Some(""), others, isUrl);
          if id.None? then Ok(None) else Ok(Some(TermsOfUse(id, url, Some(other))))
  }

  /**
   * `translate_license_data(gemini)`: the matched use-limitations are removed
   * from the caller's list before `other` is built from what is left.
   */
  method TranslateLicenseData(gemini: Gemini, order: seq<string>, isUrl: string -> bool)
    returns (r: Result<Option<TermsOfUse>>)
    requires IsKeyOrder(order, ConstraintTranslation)
    modifies gemini
    ensures r == TranslationOf(old(gemini.useLimitations), gemini.useConstraints, gemini.accessConstraints,
                               gemini.otherConstraints, order, isUrl)
    ensures ScanOf(old(gemini.useLimitations), order).Ok? ==>
      gemini.useLimitations == ScanOf(old(gemini.useLimitations), order).value.items
    ensures gemini.useConstraints == old(gemini.useConstraints)
    ensures gemini.accessConstraints == old(gemini.accessConstraints)
    ensures gemini.otherConstraints == old(gemini.otherConstraints)
  {
    var scan := gemini.RemoveMatchedLimitations(order, ConstraintTranslation, DefaultId);
    if scan.Err? {
      return Err(scan.failure);
    }
    var assembled := AssembleOther(TextWording, gemini.useLimitations, gemini.useConstraints,
                                   gemini.accessConstraints, gemini.otherConstraints);
    if assembled.Err? {
      return Err(assembled.failure);
    }
    var other := assembled.value;
    var licenseUrl := ScanUrls(Some(""), gemini.otherConstraints, isUrl);
    var applied, _ := ApplyTranslations(scan.value.licenseId, gemini.otherConstraints, other);
    if applied.Err? {
      return Err(applied.failure);
    }
    var licenseId := applied.value;
    if licenseId.Some? && licenseId.value in Urls {
      licenseUrl := Some(Urls[licenseId.value]);
    }
    if licenseId.None? {
      return Ok(None);
    }
    r := Ok(Some(TermsOfUse(licenseId, licenseUrl, Some(other))));
  }

  /** Every license id in the table is a non-empty string. */
  lemma IdsNonEmpty()
    ensures forall w | w in ConstraintTranslation && ConstraintTranslation[w].Some? :: |ConstraintTranslation[w].value| > 0
  {
  }

  /**
   * The other-constraints never change the id of a kept record: it is
   * `'other-closed'` when no use-limitation matched, and otherwise the entry
   * of a table word contained in one of the use-limitations.
   */
  lemma IdFromLimitations(limitations: seq<string>, uses: seq<string>, access: seq<string>, others: seq<string>,
                          order: seq<string>, isUrl: string -> bool)
    requires IsKeyOrder(order, ConstraintTranslation)
    requires TranslationOf(limitations, uses, access, others, order, isUrl).Ok?
    requires TranslationOf(limitations, uses, access, others, order, isUrl).value.Some?
    ensures var t := TranslationOf(limitations, uses, access, others, order, isUrl).value.value;
      t.licenseId == ScanOf(limitations, order).value.licenseId
      && (t.licenseId == DefaultId
          || exists i, w | 0 <= i < |limitations| && w in ConstraintTranslation ::
               Contains(limitations[i], w) && t.licenseId == ConstraintTranslation[w])
  {
    WholeScan(limitations, DefaultId, order, ConstraintTranslation);
    var st := ScanOf(limitations, order).value;
    assert st.licenseId.Some?;
    if st.matched.Some? {
      var c := st.matched.value;
      var i :| 0 <= i < |limitations| && limitations[i] == c;
      var w :| w in ConstraintTranslation && Contains(c, w) && st.licenseId == ConstraintTranslation[w];
      IdsNonEmpty();
      assert |st.licenseId.value| > 0;
    } else {
      assert st.licenseId == DefaultId;
    }
  }

  /**
   * When a use-limitation matched an id of `None` (`'conditions unknown'`),
   * an other-constraint that is a table key makes `len(None)` raise
   * `TypeError`; without one the record is dropped.
   */
  lemma NoneIdOutcome(limitations: seq<string>, uses: seq<string>, access: seq<string>, others: seq<string>,
                      order: seq<string>, isUrl: string -> bool)
    requires IsKeyOrder(order, ConstraintTranslation)
    requires ScanOf(limitations, order).Ok? && ScanOf(limitations, order).value.licenseId.None?
    requires OtherOf(TextWording, ScanOf(limitations, order).value.items, uses, access, others).Ok?
    ensures TranslationOf(limitations, uses, access, others, order, isUrl) ==
      if exists i | 0 <= i < |others| :: others[i] in ConstraintTranslation then Err(TypeError) else Ok(None)
  {
    var st := ScanOf(limitations, order).value;
    if !exists i | 0 <= i < |others| :: others[i] in ConstraintTranslation {
      assert IdAfter(st.licenseId, others).Ok?;
      IdAfterNoKey(st.licenseId, others);
    }
  }

  /** With no table key among the other-constraints, the id is left as it was. */
  lemma {:induction false} IdAfterNoKey(id: Option<string>, others: seq<string>)
    requires forall i | 0 <= i < |others| :: others[i] !in ConstraintTranslation
    ensures IdAfter(id, others) == Ok(id)
    decreases |others|
  {
    if |others| > 0 {
      IdAfterNoKey(id, others[..|others| - 1]);
    }
  }

  /**
   * A single use-limitation with exactly one table word `w` is removed before
   * `other` is built, so with no other constraints `other` is empty; the
   * record carries `w`'s id and its canonical URL, or is dropped when that id
   * is `None`.
   */
  lemma MatchedLimitationLeavesOther(c: string, order: seq<string>, w: string, isUrl: string -> bool)
    requires IsKeyOrder(order, ConstraintTranslation)
    requires w in ConstraintTranslation && Contains(c, w)
    requires forall v | v in ConstraintTranslation && v != w :: !Contains(c, v)
    ensures ScanOf([c], order) == Ok(ScanState([], ConstraintTranslation[w], Some(c)))
    ensures TranslationOf([c], [], [], [], order, isUrl) ==
      match ConstraintTranslation[w]
      case None => Ok(None)
      case Some(id) => Ok(Some(TermsOfUse(Some(id), Some(if id in Urls then Urls[id] else ""), Some(""))))
  {
    var m := KeyPosition(order, ConstraintTranslation, w);
    SingleLimitation(c, DefaultId, order, ConstraintTranslation, m);
    OtherEmpty(TextWording);
    assert forall v | v in ConstraintTranslation && ConstraintTranslation[v].Some? :: |ConstraintTranslation[v].value| > 0;
  }

  /** An access-constraint `'otherRestrictions'` adds nothing to the access section. */
  lemma OtherRestrictionsOmitted(access: seq<string>)
    ensures AccessNames(TextWording, access + ["otherRestrictions"]) == AccessNames(TextWording, access)
  {
    assert (access + ["otherRestrictions"])[..|access|] == access;
  }

  /**
   * The license URL of a kept record: the canonical URL of its id if it has
   * one, otherwise the last other-constraint when any of them is URL-shaped,
   * otherwise `''`.
   */
  lemma LicenseUrlOf(limitations: seq<string>, uses: seq<string>, access: seq<string>, others: seq<string>,
                     order: seq<string>, isUrl: string -> bool)
    requires IsKeyOrder(order, ConstraintTranslation) && !isUrl("")
    requires TranslationOf(limitations, uses, access, others, order, isUrl).Ok?
    requires TranslationOf(limitations, uses, access, others, order, isUrl).value.Some?
    ensures var t := TranslationOf(limitations, uses, access, others, order, isUrl).value.value;
      t.licenseUrl ==
        if t.licenseId.value in Urls then Some(Urls[t.licenseId.value])
        else if exists i | 0 <= i < |others| :: isUrl(others[i]) then Some(others[|others| - 1])
        else Some("")
  {
  }

  /** The source's first test: all four lists empty. */
  lemma EmptyListsTest(order: seq<string>, isUrl: string -> bool)
    requires IsKeyOrder(order, ConstraintTranslation)
    ensures TranslationOf([], [], [], [], order, isUrl) == Ok(Some(TermsOfUse(DefaultId, Some(""), Some(""))))
  {
    OtherEmpty(TextWording);
  }

  /** The source's second test: a single URL-shaped other-constraint is both the URL and `other`. */
  lemma SingleUrlTest(order: seq<string>, isUrl: string -> bool)
    requires IsKeyOrder(order, ConstraintTranslation)
    requires isUrl("http://www.example.com")
    ensures TranslationOf([], [], [], ["http://www.example.com"], order, isUrl)
      == Ok(Some(TermsOfUse(DefaultId, Some("http://www.example.com"), Some("http://www.example.com"))))
  {
    var others := ["http://www.example.com"];
    assert FirstUrl(others, isUrl) == Some("http://www.example.com");
    assert Spaced(others) == "http://www.example.com ";
    assert CodeNames(CodeTranslation, []) == Ok("");
    assert AccessNames(TextWording, []) == Ok("");
    assert LimitsPart(TextWording, [], []) == "";
    assert TailPart(TextWording, "", [], "", others) == "http://www.example.com ";
    assert DropLast("http://www.example.com ") == "http://www.example.com";
    assert OtherOf(TextWording, [], [], [], others) == Ok("http://www.example.com");
    assert UrlAfter(Some(""), others, isUrl) == Some("http://www.example.com");
    UrlIsNoKey("http://www.example.com");
    IdAfterNoKey(DefaultId, others);
  }

  /** Every key of the constraint table starts with one of six letters. */
  lemma KeyLeadChars(w: string)
    requires w in ConstraintTranslation
    ensures |w| > 0 && w[0] in w
    ensures w[0] == 'C' || w[0] == 'k' || w[0] == 'K' || w[0] == 'f' || w[0] == 'n' || w[0] == 'c'
  {
  }

  /** A URL is not a key of the constraint table. */
  lemma UrlIsNoKey(u: string)
    requires |u| > 0 && u[0] == 'h'
    ensures u !in ConstraintTranslation
  {
    if u in ConstraintTranslation {
      KeyLeadChars(u);
    }
  }

  /** The limitation of the source's third test has none of those six letters. */
  lemma ScaleLacksLeadChar(c: char)
    requires c == 'C' || c == 'k' || c == 'K' || c == 'f' || c == 'n' || c == 'c'
    ensures c !in "Nur im MaÃtab 1:50.000"
  {
  }

  /** No key of `constraint_translation` occurs in the limitation of the third and fourth tests. */
  lemma NoKeyInScale()
    ensures forall w | w in ConstraintTranslation :: !Contains("Nur im MaÃtab 1:50.000", w)
  {
    forall w | w in ConstraintTranslation
      ensures !Contains("Nur im MaÃtab 1:50.000", w)
    {
      KeyLeadChars(w);
      ScaleLacksLeadChar(w[0]);
      MissingCharNotContained("Nur im MaÃtab 1:50.000", w, w[0]);
    }
  }

  /** The scan leaves the limitation of the third and fourth tests where it is. */
  lemma ScaleScan(order: seq<string>)
    requires IsKeyOrder(order, ConstraintTranslation)
    ensures ScanOf(["Nur im MaÃtab 1:50.000"], order) == Ok(ScanState(["Nur im MaÃtab 1:50.000"], DefaultId, None))
  {
    NoKeyInScale();
    ScanNoMatch(ScanState(["Nur im MaÃtab 1:50.000"], DefaultId, None), 0, order, ConstraintTranslation);
  }

  /** The `other` text of the source's third test. */
  lemma LimitationTestOther()
    ensures OtherOf(TextWording, ["Nur im MaÃtab 1:50.000"], [], [], [])
      == Ok("Nutzungsbeschräungen: " + "Nur im MaÃtab 1:50.000")
  {
    var limitations := ["Nur im MaÃtab 1:50.000"];
    assert Spaced(limitations) == "Nur im MaÃtab 1:50.000 ";
    assert CodeNames(CodeTranslation, []) == Ok("");
    assert AccessNames(TextWording, []) == Ok("");
    var raw := LimitsPart(TextWording, limitations, []) + TailPart(TextWording, "", [], "", []);
    assert raw == "Nutzungsbeschräungen: " + "Nur im MaÃtab 1:50.000 ";
    DropLastAppend("Nutzungsbeschräungen: ", "Nur im MaÃtab 1:50.000 ");
    assert DropLast("Nur im MaÃtab 1:50.000 ") == "Nur im MaÃtab 1:50.000";
  }

  /** The source's third test: an unmatched limitation goes to `other` under its heading. */
  lemma LimitationTest(order: seq<string>, isUrl: string -> bool)
    requires IsKeyOrder(order, ConstraintTranslation)
    ensures TranslationOf(["Nur im MaÃtab 1:50.000"], [], [], [], order, isUrl)
      == Ok(Some(TermsOfUse(DefaultId, Some(""), Some("Nutzungsbeschräungen: " + "Nur im MaÃtab 1:50.000"))))
  {
    ScaleScan(order);
    LimitationTestOther();
    IdAfterNoKey(DefaultId, []);
    assert "other-closed" !in Urls;
    assert UrlAfter(Some(""), [], isUrl) == Some("");
  }

  lemma CopyrightName()
    ensures CodeNames(CodeTranslation, ["copyright"]) == Ok("Urheberrecht ")
  {
    var uses := ["copyright"];
    assert uses[..0] == [];
    assert CodeNames(CodeTranslation, []) == Ok("");
    assert CodeNames(CodeTranslation, uses) == Ok("" + "Urheberrecht" + " ");
    assert "" + "Urheberrecht" + " " == "Urheberrecht ";
  }

  /** The `other` text of the source's fourth test. */
  lemma LicenseUrlTestOther()
    ensures OtherOf(TextWording, ["Nur im MaÃtab 1:50.000"], ["copyright"], [], ["http://example-license.com/"])
      == Ok("Nutzungsbeschräungen: " + "Nur im MaÃtab 1:50.000 " + "Urheberrecht " + "http://example-license.com/")
  {
    var limitations, uses, others := ["Nur im MaÃtab 1:50.000"], ["copyright"], ["http://example-license.com/"];
    assert Spaced(limitations) == "Nur im MaÃtab 1:50.000 ";
    assert Spaced(others) == "http://example-license.com/ ";
    CopyrightName();
    assert AccessNames(TextWording, []) == Ok("");
    var front := "Nutzungsbeschräungen: " + "Nur im MaÃtab 1:50.000 " + "Urheberrecht ";
    assert LimitsPart(TextWording, limitations, uses) + TailPart(TextWording, "Urheberrecht ", [], "", others)
      == front + "http://example-license.com/ ";
    DropLastAppend(front, "http://example-license.com/ ");
    assert DropLast("http://example-license.com/ ") == "http://example-license.com/";
  }

  /** The source's fourth test: a limitation, a use-constraint and a license URL. */
  lemma LicenseUrlTest(order: seq<string>, isUrl: string -> bool)
    requires IsKeyOrder(order, ConstraintTranslation)
    requires isUrl("http://example-license.com/")
    ensures TranslationOf(["Nur im MaÃtab 1:50.000"], ["copyright"], [], ["http://example-license.com/"], order, isUrl)
      == Ok(Some(TermsOfUse(DefaultId, Some("http://example-license.com/"),
                            Some("Nutzungsbeschräungen: " + "Nur im MaÃtab 1:50.000 " + "Urheberrecht "
                                 + "http://example-license.com/"))))
  {
    var others := ["http://example-license.com/"];
    ScaleScan(order);
    LicenseUrlTestOther();
    assert FirstUrl(others, isUrl) == Some("http://example-license.com/");
    assert UrlAfter(Some(""), others, isUrl) == Some("http://example-license.com/");
    UrlIsNoKey("http://example-license.com/");
    IdAfterNoKey(DefaultId, others);
    assert "other-closed" !in Urls;
  }
}
