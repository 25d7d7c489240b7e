/**
 * `InspireDocument.read_values` as a whole (ckanext/spatial/model/harvested_metadata.py:19-31):
 * the element loop over `InspireDocument.elements`, then `infer_values` on
 * the dictionary it filled; and what the INSPIRE import of
 * ckanext/spatial/harvesters.py then finds in that dictionary.
 */
module InspireImport {
  import opened PyText
  import opened FieldMapper
  import opened Schemas
  import opened Inference
  import HarvesterImport

  // ---------------------------------------------------------------------
  // The shapes the mapped elements give
  // ---------------------------------------------------------------------

  /** The last child with a given name: the one whose value the composite keeps. */
  lemma {:induction false} LastNamed(children: seq<ElementSpec>, k: string) returns (i: nat)
    requires k in ChildNames(children)
    ensures i < |children| && children[i].name == k && LastWithName(children, i)
    decreases |children|
  {
    var n := |children| - 1;
    if children[n].name == k {
      i := n;
    } else {
      var init := children[..n];
      var c :| c in children && c.name == k;
      assert c in init;
      i := LastNamed(init, k);
      assert init[i] == children[i];
    }
  }

  /** A composite all of whose children are optional strings gives a dictionary of strings. */
  lemma FlatTextItem(e: ElementSpec, x: Value)
    requires e.children != [] && ItemConforms(e, x)
    requires forall i | 0 <= i < |e.children| :: e.children[i].children == [] && e.children[i].multiplicity == "0..1"
    ensures x.Obj? && TextFields(x.fields)
  {
    forall k | k in x.fields
      ensures x.fields[k].Str?
    {
      var i := LastNamed(e.children, k);
      assert Conforms(e.children[i], x.fields[k]);
    }
  }

  /** A list of plain elements is a list of strings. */
  lemma TextList(e: ElementSpec, v: Value)
    requires e.children == [] && (e.multiplicity == "*" || e.multiplicity == "1..*") && Conforms(e, v)
    ensures Texts(v)
  {
    forall i | 0 <= i < |v.items|
      ensures v.items[i].Str?
    {
      assert ItemConforms(e, v.items[i]);
    }
  }

  /** A list of `GeminiReferenceDate` items is a list of dates. */
  lemma DateList(e: ElementSpec, v: Value)
    requires e.children == ReferenceDateFields && (e.multiplicity == "*" || e.multiplicity == "1..*")
    requires Conforms(e, v)
    ensures Dates(v)
  {
    assert ReferenceDateFields[0] in ReferenceDateFields && ReferenceDateFields[1] in ReferenceDateFields;
    forall i | 0 <= i < |v.items|
      ensures IsDate(v.items[i])
    {
      assert ItemConforms(e, v.items[i]);
    }
  }

  /** An optional plain child: its value is a string. */
  predicate OptionalText(c: ElementSpec)
  {
    c.children == [] && c.multiplicity == "0..1"
  }

  /** What a locator needs of the child list: `url`, `function` and a string `name`. */
  predicate LocatorShaped(ch: seq<ElementSpec>)
  {
    && |ch| >= 3 && ch[0].name == "url" && ch[1].name == "function" && ch[2].name == "name"
    && OptionalText(ch[2]) && LastWithName(ch, 2)
  }

  lemma LocatorFieldsShaped()
    ensures LocatorShaped(ResourceLocatorFields)
  {
  }

  /** One `GeminiResourceLocator` item is a locator with a string `name`. */
  lemma LocatorItem(e: ElementSpec, x: Value)
    requires LocatorShaped(e.children) && ItemConforms(e, x)
    ensures IsLocator(x)
  {
    var ch := e.children;
    assert ch[0] in ch && ch[1] in ch && ch[2] in ch;
    assert Conforms(ch[2], x.fields["name"]);
  }

  /** A list of `GeminiResourceLocator` items is a list of locators. */
  lemma LocatorList(e: ElementSpec, v: Value)
    requires LocatorShaped(e.children) && (e.multiplicity == "*" || e.multiplicity == "1..*")
    requires Conforms(e, v)
    ensures Locators(v)
  {
    forall i | 0 <= i < |v.items|
      ensures IsLocator(v.items[i])
    {
      LocatorItem(e, v.items[i]);
    }
  }

  /**
   * What a party needs of the child list: `organisation-name` and `role`
   * first and last, optional strings everywhere but the composite
   * `contact-info`, whose own children are all optional strings.
   */
  predicate PartyShaped(ch: seq<ElementSpec>)
  {
    && |ch| == 5 && ch[0].name == "organisation-name" && ch[4].name == "role"
    && (forall i | 0 <= i < 5 && i != 3 :: OptionalText(ch[i]) && ch[i].name != "contact-info")
    && ch[3].name == "contact-info" && ch[3].children != []
    && forall i | 0 <= i < |ch[3].children| :: OptionalText(ch[3].children[i])
  }

  lemma PartyFieldsShaped()
    ensures PartyShaped(ResponsiblePartyFields)
  {
  }

  /** One `GeminiResponsibleParty` item is a party: string entries and a dictionary of strings as contact. */
  lemma PartyItem(e: ElementSpec, x: Value)
    requires PartyShaped(e.children) && ItemConforms(e, x)
    ensures IsParty(x)
  {
    var ch := e.children;
    assert ch[0] in ch && ch[4] in ch;
    forall k | k in x.fields && k != "contact-info"
      ensures x.fields[k].Str?
    {
      var i := LastNamed(ch, k);
      assert Conforms(ch[i], x.fields[k]);
    }
    if "contact-info" in x.fields && x.fields["contact-info"].Obj? {
      var i := LastNamed(ch, "contact-info");
      assert Conforms(ch[3], x.fields["contact-info"]);
      FlatTextItem(ch[3], x.fields["contact-info"]);
    }
  }

  /** A list of `GeminiResponsibleParty` items is a list of parties. */
  lemma PartyList(e: ElementSpec, v: Value)
    requires PartyShaped(e.children) && (e.multiplicity == "*" || e.multiplicity == "1..*")
    requires Conforms(e, v)
    ensures Parties(v)
  {
    forall i | 0 <= i < |v.items|
      ensures IsParty(v.items[i])
    {
      PartyItem(e, v.items[i]);
    }
  }

  // ---------------------------------------------------------------------
  // What the element loop leaves under the names infer_values reads
  // ---------------------------------------------------------------------

  /** The dictionary the element loop over `InspireDocument.elements` fills. */
  function ReadInspire<N>(tree: N, xml: Xml<N>, unescapeText: string -> string): Result<map<string, Value>>
  {
    ReadValuesOf(InspireElements, |InspireElements|, tree, xml, unescapeText)
  }

  /**
   * An element read as a list and not shadowed by a later one of the same
   * name leaves its value, which unescaping keeps as it is, under its name.
   */
  lemma ListEntry<N>(els: seq<ElementSpec>, i: nat, tree: N, xml: Xml<N>, unescapeText: string -> string)
    requires i < |els| && ReadValuesOf(els, |els|, tree, xml, unescapeText).Ok?
    requires forall j | i < j < |els| :: els[j].name != els[i].name
    requires els[i].multiplicity == "*" || els[i].multiplicity == "1..*"
    ensures var m := ReadValuesOf(els, |els|, tree, xml, unescapeText).value;
      els[i].name in m && Conforms(els[i], m[els[i].name])
  {
    ReadValuesEntry(els, |els|, i, tree, xml, unescapeText);
    ReadElementConforms(els[i], tree, xml);
  }

  lemma ServiceDateLast()
    ensures InspireElements[9] == InspireServiceDate
    ensures forall j | 9 < j < |InspireElements| :: InspireElements[j].name != "service-date"
  {
  }

  lemma ServiceDateRead<N>(tree: N, xml: Xml<N>, unescapeText: string -> string)
    requires ReadInspire(tree, xml, unescapeText).Ok?
    ensures var m := ReadInspire(tree, xml, unescapeText).value;
      "service-date" in m && Dates(m["service-date"])
  {
    ServiceDateLast();
    ListEntry(InspireElements, 9, tree, xml, unescapeText);
    DateList(InspireServiceDate, ReadInspire(tree, xml, unescapeText).value["service-date"]);
  }

  lemma DatasetDateLast()
    ensures InspireElements[8] == InspireDatasetDate
    ensures forall j | 8 < j < |InspireElements| :: InspireElements[j].name != "dataset-date"
  {
  }

  lemma DatasetDateRead<N>(tree: N, xml: Xml<N>, unescapeText: string -> string)
    requires ReadInspire(tree, xml, unescapeText).Ok?
    ensures var m := ReadInspire(tree, xml, unescapeText).value;
      "dataset-date" in m && Dates(m["dataset-date"])
  {
    DatasetDateLast();
    ListEntry(InspireElements, 8, tree, xml, unescapeText);
    DateList(InspireDatasetDate, ReadInspire(tree, xml, unescapeText).value["dataset-date"]);
  }

  lemma ResourceLocatorLast()
    ensures InspireElements[39] == InspireResourceLocator
    ensures forall j | 39 < j < |InspireElements| :: InspireElements[j].name != "resource-locator"
  {
  }

  lemma ResourceLocatorRead<N>(tree: N, xml: Xml<N>, unescapeText: string -> string)
    requires ReadInspire(tree, xml, unescapeText).Ok?
    ensures var m := ReadInspire(tree, xml, unescapeText).value;
      "resource-locator" in m && Locators(m["resource-locator"])
  {
    ResourceLocatorLast();
    ListEntry(InspireElements, 39, tree, xml, unescapeText);
    LocatorFieldsShaped();
    LocatorList(InspireResourceLocator, ReadInspire(tree, xml, unescapeText).value["resource-locator"]);
  }

  lemma ResponsibleOrganisationLast()
    ensures InspireElements[11] == InspireResponsibleOrganisation
    ensures forall j | 11 < j < |InspireElements| :: InspireElements[j].name != "responsible-organisation"
  {
  }

  lemma ResponsibleOrganisationRead<N>(tree: N, xml: Xml<N>, unescapeText: string -> string)
    requires ReadInspire(tree, xml, unescapeText).Ok?
    ensures var m := ReadInspire(tree, xml, unescapeText).value;
      "responsible-organisation" in m && Parties(m["responsible-organisation"])
  {
    ResponsibleOrganisationLast();
    ListEntry(InspireElements, 11, tree, xml, unescapeText);
    PartyFieldsShaped();
    PartyList(InspireResponsibleOrganisation, ReadInspire(tree, xml, unescapeText).value["responsible-organisation"]);
  }

  lemma KeywordInspireThemeLast()
    ensures InspireElements[14] == InspireKeywordInspireTheme
    ensures forall j | 14 < j < |InspireElements| :: InspireElements[j].name != "keyword-inspire-theme"
  {
  }

  lemma KeywordInspireThemeRead<N>(tree: N, xml: Xml<N>, unescapeText: string -> string)
    requires ReadInspire(tree, xml, unescapeText).Ok?
    ensures var m := ReadInspire(tree, xml, unescapeText).value;
      "keyword-inspire-theme" in m && Texts(m["keyword-inspire-theme"])
  {
    KeywordInspireThemeLast();
    ListEntry(InspireElements, 14, tree, xml, unescapeText);
    TextList(InspireKeywordInspireTheme, ReadInspire(tree, xml, unescapeText).value["keyword-inspire-theme"]);
  }

  lemma KeywordControlledOtherLast()
    ensures InspireElements[15] == InspireKeywordControlledOther
    ensures forall j | 15 < j < |InspireElements| :: InspireElements[j].name != "keyword-controlled-other"
  {
  }

  lemma KeywordControlledOtherRead<N>(tree: N, xml: Xml<N>, unescapeText: string -> string)
    requires ReadInspire(tree, xml, unescapeText).Ok?
    ensures var m := ReadInspire(tree, xml, unescapeText).value;
      "keyword-controlled-other" in m && Texts(m["keyword-controlled-other"])
  {
    KeywordControlledOtherLast();
    ListEntry(InspireElements, 15, tree, xml, unescapeText);
    TextList(InspireKeywordControlledOther, ReadInspire(tree, xml, unescapeText).value["keyword-controlled-other"]);
  }

  lemma KeywordFreeTextLast()
    ensures InspireElements[16] == InspireKeywordFreeText
    ensures forall j | 16 < j < |InspireElements| :: InspireElements[j].name != "keyword-free-text"
  {
  }

  lemma KeywordFreeTextRead<N>(tree: N, xml: Xml<N>, unescapeText: string -> string)
    requires ReadInspire(tree, xml, unescapeText).Ok?
    ensures var m := ReadInspire(tree, xml, unescapeText).value;
      "keyword-free-text" in m && Texts(m["keyword-free-text"])
  {
    KeywordFreeTextLast();
    ListEntry(InspireElements, 16, tree, xml, unescapeText);
    TextList(InspireKeywordFreeText, ReadInspire(tree, xml, unescapeText).value["keyword-free-text"]);
  }

  lemma KeywordListWithThesaurusLast()
    ensures InspireElements[45] == InspireKeywordListWithThesaurus
    ensures forall j | 45 < j < |InspireElements| :: InspireElements[j].name != "keyword-list-with-thesaurus"
  {
  }

  lemma KeywordListWithThesaurusRead<N>(tree: N, xml: Xml<N>, unescapeText: string -> string)
    requires ReadInspire(tree, xml, unescapeText).Ok?
    ensures var m := ReadInspire(tree, xml, unescapeText).value;
      "keyword-list-with-thesaurus" in m && Texts(m["keyword-list-with-thesaurus"])
  {
    KeywordListWithThesaurusLast();
    ListEntry(InspireElements, 45, tree, xml, unescapeText);
    TextList(InspireKeywordListWithThesaurus, ReadInspire(tree, xml, unescapeText).value["keyword-list-with-thesaurus"]);
  }

  lemma KeywordListWithoutThesaurusLast()
    ensures InspireElements[46] == InspireKeywordListWithoutThesaurus
    ensures forall j | 46 < j < |InspireElements| :: InspireElements[j].name != "keyword-list-without-thesaurus"
  {
  }

  lemma KeywordListWithoutThesaurusRead<N>(tree: N, xml: Xml<N>, unescapeText: string -> string)
    requires ReadInspire(tree, xml, unescapeText).Ok?
    ensures var m := ReadInspire(tree, xml, unescapeText).value;
      "keyword-list-without-thesaurus" in m && Texts(m["keyword-list-without-thesaurus"])
  {
    KeywordListWithoutThesaurusLast();
    ListEntry(InspireElements, 46, tree, xml, unescapeText);
    TextList(InspireKeywordListWithoutThesaurus, ReadInspire(tree, xml, unescapeText).value["keyword-list-without-thesaurus"]);
  }

  /** Every dictionary the element loop returns has the shapes `infer_values` relies on. */
  lemma ReadyAfterRead<N>(tree: N, xml: Xml<N>, unescapeText: string -> string)
    requires ReadInspire(tree, xml, unescapeText).Ok?
    ensures Ready(ReadInspire(tree, xml, unescapeText).value)
  {
    ServiceDateRead(tree, xml, unescapeText);
    DatasetDateRead(tree, xml, unescapeText);
    ResourceLocatorRead(tree, xml, unescapeText);
    ResponsibleOrganisationRead(tree, xml, unescapeText);
    KeywordInspireThemeRead(tree, xml, unescapeText);
    KeywordControlledOtherRead(tree, xml, unescapeText);
    KeywordFreeTextRead(tree, xml, unescapeText);
    KeywordListWithThesaurusRead(tree, xml, unescapeText);
    KeywordListWithoutThesaurusRead(tree, xml, unescapeText);
  }

  // ---------------------------------------------------------------------
  // InspireDocument.read_values
  // ---------------------------------------------------------------------

  /**
   * `InspireDocument.read_values`: the element loop, then `infer_values` on
   * its dictionary; an error of either is the error of the whole.
   */
  function ReadInspireValues<N>(tree: N, xml: Xml<N>, unescapeText: string -> string): (r: Result<map<string, Value>>)
    ensures ReadInspire(tree, xml, unescapeText).Err? ==> r == Err(ReadInspire(tree, xml, unescapeText).error)
    ensures ReadInspire(tree, xml, unescapeText).Ok? ==>
      Ready(ReadInspire(tree, xml, unescapeText).value)
      && r == InferValuesOf(ReadInspire(tree, xml, unescapeText).value, xml)
  {
    match ReadInspire(tree, xml, unescapeText)
    case Err(err) => Err(err)
    case Ok(m) =>
      ReadyAfterRead(tree, xml, unescapeText);
      InferValuesOf(m, xml)
  }

  // ---------------------------------------------------------------------
  // The extras write_package_from_inspire_string copies
  // ---------------------------------------------------------------------

  /** Every element name is a key of the dictionary the element loop returns. */
  lemma ReadNamePresent<N>(els: seq<ElementSpec>, j: nat, tree: N, xml: Xml<N>, unescapeText: string -> string)
    requires j < |els| && ReadValuesOf(els, |els|, tree, xml, unescapeText).Ok?
    ensures els[j].name in ReadValuesOf(els, |els|, tree, xml, unescapeText).value
  {
    ReadValuesKeys(els, |els|, tree, xml, unescapeText);
    assert els[..|els|][j] == els[j];
  }

  /** A name no element carries is not a key of it. */
  lemma ReadNameAbsent<N>(els: seq<ElementSpec>, k: string, tree: N, xml: Xml<N>, unescapeText: string -> string)
    requires ReadValuesOf(els, |els|, tree, xml, unescapeText).Ok?
    requires forall j | 0 <= j < |els| :: els[j].name != k
    ensures k !in ReadValuesOf(els, |els|, tree, xml, unescapeText).value
  {
    ReadValuesKeys(els, |els|, tree, xml, unescapeText);
    assert els[..|els|] == els;
  }

  /** No element of `InspireDocument.elements` is named `dataset-reference-date`. */
  lemma NoReferenceDateElement()
    ensures forall j | 0 <= j < |InspireElements| :: InspireElements[j].name != "dataset-reference-date"
  {
    NoReferenceDateBelow16();
    NoReferenceDateBelow32();
    NoReferenceDateFrom32();
  }

  lemma NoReferenceDateBelow16()
    ensures forall j | 0 <= j < 16 :: InspireElements[j].name != "dataset-reference-date"
  {
  }

  lemma NoReferenceDateBelow32()
    ensures forall j | 16 <= j < 32 :: InspireElements[j].name != "dataset-reference-date"
  {
  }

  lemma NoReferenceDateFrom32()
    ensures |InspireElements| == 47
    ensures forall j | 32 <= j < 47 :: InspireElements[j].name != "dataset-reference-date"
  {
  }

  /** The elements named like the first six extras. */
  lemma ExtrasElements()
    ensures |InspireElements| == 47
    ensures InspireElements[29] == InspireBboxEastLong && InspireElements[30] == InspireBboxNorthLat
    ensures InspireElements[31] == InspireBboxSouthLat && InspireElements[28] == InspireBboxWestLong
    ensures InspireElements[5] == InspireSpatialReferenceSystem && InspireElements[0] == InspireGuid
  {
  }

  /** Every key `infer_values` neither writes nor could write as a contact key survives it. */
  lemma InferenceKeeps<N>(m: map<string, Value>, xml: Xml<N>)
    requires Ready(m) && InferValuesOf(m, xml).Ok?
    ensures forall k | k in m && NoContactSuffix(k) && !InferredName(k) :: k in InferValuesOf(m, xml).value
  {
    forall k | k in m && NoContactSuffix(k) && !InferredName(k)
      ensures k in InferValuesOf(m, xml).value
    {
      InferredFrame(m, xml, k);
    }
  }

  /** The first six extras names survive `infer_values`. */
  lemma InferenceKeepsExtras<N>(m: map<string, Value>, xml: Xml<N>)
    requires Ready(m) && InferValuesOf(m, xml).Ok?
    requires && "bbox-east-long" in m && "bbox-north-lat" in m && "bbox-south-lat" in m
             && "bbox-west-long" in m && "spatial-reference-system" in m && "guid" in m
    ensures var r := InferValuesOf(m, xml).value;
      && "bbox-east-long" in r && "bbox-north-lat" in r && "bbox-south-lat" in r
      && "bbox-west-long" in r && "spatial-reference-system" in r && "guid" in r
  {
    ExtrasKeysApart();
    ExtrasNotInferred();
    InferenceKeeps(m, xml);
  }

  /** The element loop leaves the first six extras names as keys. */
  lemma ReadExtrasNames<N>(tree: N, xml: Xml<N>, unescapeText: string -> string)
    requires ReadInspire(tree, xml, unescapeText).Ok?
    ensures var m := ReadInspire(tree, xml, unescapeText).value;
      && "bbox-east-long" in m && "bbox-north-lat" in m && "bbox-south-lat" in m
      && "bbox-west-long" in m && "spatial-reference-system" in m && "guid" in m
  {
    ExtrasElements();
    ReadNamePresent(InspireElements, 29, tree, xml, unescapeText);
    ReadNamePresent(InspireElements, 30, tree, xml, unescapeText);
    ReadNamePresent(InspireElements, 31, tree, xml, unescapeText);
    ReadNamePresent(InspireElements, 28, tree, xml, unescapeText);
    ReadNamePresent(InspireElements, 5, tree, xml, unescapeText);
    ReadNamePresent(InspireElements, 0, tree, xml, unescapeText);
  }

  /** And `infer_values` keeps them. */
  lemma InferredExtrasNames<N>(tree: N, xml: Xml<N>, unescapeText: string -> string)
    requires ReadInspireValues(tree, xml, unescapeText).Ok?
    ensures var r := ReadInspireValues(tree, xml, unescapeText).value;
      && "bbox-east-long" in r && "bbox-north-lat" in r && "bbox-south-lat" in r
      && "bbox-west-long" in r && "spatial-reference-system" in r && "guid" in r
  {
    ReadExtrasNames(tree, xml, unescapeText);
    InferenceKeepsExtras(ReadInspire(tree, xml, unescapeText).value, xml);
  }

  /** The first six extras names, and the seventh. */
  lemma ExtrasNamesHead()
    ensures |HarvesterImport.ExtrasNames| == 14
    ensures var ns := HarvesterImport.ExtrasNames;
      && ns[0] == "bbox-east-long" && ns[1] == "bbox-north-lat" && ns[2] == "bbox-south-lat"
      && ns[3] == "bbox-west-long" && ns[4] == "spatial-reference-system" && ns[5] == "guid"
      && ns[6] == "dataset-reference-date"
  {
  }

  /** `dataset-reference-date` is neither read nor inferred. */
  lemma ReferenceDateAbsent<N>(tree: N, xml: Xml<N>, unescapeText: string -> string)
    requires ReadInspireValues(tree, xml, unescapeText).Ok?
    ensures "dataset-reference-date" !in ReadInspireValues(tree, xml, unescapeText).value
  {
    var k := "dataset-reference-date";
    NoReferenceDateElement();
    ReadNameAbsent(InspireElements, k, tree, xml, unescapeText);
    ReferenceDateKeyApart();
    InferredFrame(ReadInspire(tree, xml, unescapeText).value, xml, k);
  }

  lemma ReferenceDateKeyApart()
    ensures NoContactSuffix("dataset-reference-date") && !InferredName("dataset-reference-date")
  {
    NoContactSuffixByEnd("dataset-reference-date");
  }

  /**
   * On a dictionary holding the first six extras names but not the seventh,
   * the copy of the extras stops with a `KeyError` for the seventh.
   */
  lemma ExtrasCopyStops(values: map<string, Value>, extras: map<string, Value>)
    requires && "bbox-east-long" in values && "bbox-north-lat" in values && "bbox-south-lat" in values
             && "bbox-west-long" in values && "spatial-reference-system" in values && "guid" in values
    requires "dataset-reference-date" !in values
    ensures HarvesterImport.CopyExtras(HarvesterImport.ExtrasNames, values, extras)
      == HarvesterImport.MissingKey("dataset-reference-date")
  {
    ExtrasNamesHead();
    HarvesterImport.CopyExtrasStops(HarvesterImport.ExtrasNames, values, extras, 6);
  }

  /**
   * `InspireDocument` declares no `dataset-reference-date` and `infer_values`
   * writes none, so the INSPIRE import's copy of the extras raises
   * `KeyError('dataset-reference-date')` for every document that reads.
   */
  lemma InspireExtrasMissReferenceDate<N>(tree: N, xml: Xml<N>, unescapeText: string -> string,
                                          extras: map<string, Value>)
    requires ReadInspireValues(tree, xml, unescapeText).Ok?
    ensures "dataset-reference-date" !in ReadInspireValues(tree, xml, unescapeText).value
    ensures HarvesterImport.CopyExtras(HarvesterImport.ExtrasNames, ReadInspireValues(tree, xml, unescapeText).value, extras)
      == HarvesterImport.MissingKey("dataset-reference-date")
  {
    ReferenceDateAbsent(tree, xml, unescapeText);
    InferredExtrasNames(tree, xml, unescapeText);
    ExtrasCopyStops(ReadInspireValues(tree, xml, unescapeText).value, extras);
  }

  /** None of the first six extras names is one `infer_values` writes. */
  lemma ExtrasNotInferred()
    ensures !InferredName("bbox-east-long") && !InferredName("bbox-north-lat")
    ensures !InferredName("bbox-south-lat") && !InferredName("bbox-west-long")
    ensures !InferredName("spatial-reference-system") && !InferredName("guid")
  {
  }

  /** None of the first six extras names ends in a contact suffix. */
  lemma ExtrasKeysApart()
    ensures NoContactSuffix("bbox-east-long") && NoContactSuffix("bbox-north-lat")
    ensures NoContactSuffix("bbox-south-lat") && NoContactSuffix("bbox-west-long")
    ensures NoContactSuffix("spatial-reference-system") && NoContactSuffix("guid")
  {
    BboxKeysApart();
    NoContactSuffixByEnd("spatial-reference-system");
    NoContactSuffixWithoutDash("guid");
  }

  lemma BboxKeysApart()
    ensures NoContactSuffix("bbox-east-long") && NoContactSuffix("bbox-north-lat")
    ensures NoContactSuffix("bbox-south-lat") && NoContactSuffix("bbox-west-long")
  {
    NoContactSuffixByEnd("bbox-east-long");
    NoContactSuffixByEnd("bbox-north-lat");
    NoContactSuffixByEnd("bbox-south-lat");
    NoContactSuffixByEnd("bbox-west-long");
  }
}
