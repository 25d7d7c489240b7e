/**
 * The `infer_*` methods of `InspireDocument`
 * (ckanext/spatial/model/harvested_metadata.py:1099-1330) as they run:
 * each updates the shared value dictionary in place, scanning its lists
 * with loops. Every method is proved to leave the dictionary its step
 * function in module `Inference` describes, and the properties of the
 * steps are proved there.
 */
module InferValues {
  import opened PyText
  import opened FieldMapper
  import opened Inference

  /** `acc`, then each element of `xs` that is not yet in it (`if item not in tags: tags.append(item)`). */
  method AppendMissing(acc: seq<Value>, xs: seq<Value>) returns (r: seq<Value>)
    ensures r == AppendNew(acc, xs)
  {
    r := acc;
    var i := 0;
    while i < |xs|
      invariant 0 <= i <= |xs|
      invariant r == AppendNew(acc, xs[..i])
    {
      assert xs[..i + 1][..i] == xs[..i];
      if xs[i] !in r {
        r := r + [xs[i]];
      }
      i := i + 1;
    }
    assert xs[..|xs|] == xs;
  }

  /** The inner loop of the date steps: the new values of one date list whose `type` is `dateType`. */
  method ScanDates(acc: seq<Value>, dates: seq<Value>, dateType: string) returns (r: seq<Value>)
    requires AllDates(dates)
    ensures r == AppendNew(acc, TypedValues(dates, dateType))
  {
    r := acc;
    var i := 0;
    while i < |dates|
      invariant 0 <= i <= |dates|
      invariant r == AppendNew(acc, TypedValues(dates[..i], dateType))
    {
      var date := dates[i];
      var prefix := dates[..i + 1];
      assert prefix[..i] == dates[..i] && prefix[i] == date;
      ghost var seen := TypedValues(dates[..i], dateType);
      if date.fields["type"] == Str(dateType) {
        assert TypedValues(prefix, dateType) == seen + [date.fields["value"]];
        assert (seen + [date.fields["value"]])[..|seen|] == seen;
        if date.fields["value"] !in r {
          r := r + [date.fields["value"]];
        }
      } else {
        assert TypedValues(prefix, dateType) == seen;
      }
      i := i + 1;
    }
    assert dates[..|dates|] == dates;
  }

  /** The two loops of a date step, over `service-date` and then `dataset-date`. */
  method CollectDates(m: map<string, Value>, dateType: string) returns (r: seq<Value>)
    requires Ready(m)
    ensures r == DatesOfType(m, dateType)
  {
    var service := m["service-date"].items;
    var dataset := m["dataset-date"].items;
    r := ScanDates([], service, dateType);
    r := ScanDates(r, dataset, dateType);
    AppendNewConcat([], TypedValues(service, dateType), TypedValues(dataset, dateType));
  }

  /** The `tags` loops of `infer_tags`: the three keyword fields merged without duplicates. */
  method MergeKeywords(m: map<string, Value>, acc: seq<Value>) returns (r: seq<Value>)
    requires Ready(m)
    ensures r == AppendNew(acc, KeywordCandidates(m))
  {
    var theme := m["keyword-inspire-theme"].items;
    var other := m["keyword-controlled-other"].items;
    var free := m["keyword-free-text"].items;
    r := AppendMissing(acc, theme);
    r := AppendMissing(r, other);
    r := AppendMissing(r, free);
    AppendNewConcat(acc, theme, other);
    AppendNewConcat(acc, theme + other, free);
  }

  /** One locator more in the scan of `infer_special_url`. */
  lemma LocatorScanStep(locs: seq<Value>, i: nat)
    requires AllLocators(locs) && i < |locs|
    ensures var loc := locs[i];
      && FurtherInfoUrl(locs[..i + 1])
        == (if FurtherInfoName(Name(loc)) then Some(loc.fields["url"]) else FurtherInfoUrl(locs[..i]))
      && UsedDatasets(locs[..i + 1])
        == UsedDatasets(locs[..i]) + (if BasisdatenName(Name(loc)) then [loc.fields["name"]] else [])
      && FoundBy(locs[..i + 1], FurtherInfoLocator, BasisdatenLocator)
        == FoundBy(locs[..i], FurtherInfoLocator, BasisdatenLocator)
          + (if FurtherInfoLocator(loc) then [loc] else []) + (if BasisdatenLocator(loc) then [loc] else [])
  {
    var prefix := locs[..i + 1];
    assert prefix[..i] == locs[..i] && prefix[i] == locs[i];
  }

  /** The scan's three results after one locator more. */
  lemma ScanLocatorsStep(locs: seq<Value>, i: nat, furtherInfo: Option<Value>, usedDatasets: seq<Value>, found: seq<Value>)
    requires AllLocators(locs) && i < |locs|
    requires furtherInfo == FurtherInfoUrl(locs[..i]) && usedDatasets == UsedDatasets(locs[..i])
    requires found == FoundBy(locs[..i], FurtherInfoLocator, BasisdatenLocator)
    ensures var loc := locs[i];
      var info, basis := FurtherInfoName(Name(loc)), BasisdatenName(Name(loc));
      && (if info then Some(loc.fields["url"]) else furtherInfo) == FurtherInfoUrl(locs[..i + 1])
      && usedDatasets + (if basis then [loc.fields["name"]] else []) == UsedDatasets(locs[..i + 1])
      && found + (if info then [loc] else []) + (if basis then [loc] else [])
         == FoundBy(locs[..i + 1], FurtherInfoLocator, BasisdatenLocator)
  {
    LocatorScanStep(locs, i);
    var loc := locs[i];
    assert FurtherInfoLocator(loc) == FurtherInfoName(Name(loc));
    assert BasisdatenLocator(loc) == BasisdatenName(Name(loc));
  }

  /** One thesaurus block more in the sort of `infer_groups`. */
  lemma SortBlocksExtend<N>(blocks: seq<Value>, xml: Xml<N>, i: nat)
    requires AllText(blocks) && i < |blocks|
    requires SortBlocks(blocks[..i], xml).Ok? && BlockKeywords(blocks[i].s, xml).Ok?
    ensures var prior := SortBlocks(blocks[..i], xml).value;
      var more := BlockKeywords(blocks[i].s, xml).value;
      SortBlocks(blocks[..i + 1], xml) == Ok(Sorted(prior.groups + more.groups, prior.tags + more.tags))
  {
    var prefix := blocks[..i + 1];
    assert prefix[..i] == blocks[..i] && prefix[i] == blocks[i];
  }

  /** One block more in the keyword scan of `infer_special_tags`. */
  lemma BlockTagsExtend<N>(blocks: seq<Value>, xml: Xml<N>, i: nat)
    requires AllText(blocks) && i < |blocks|
    requires BlockTags(blocks[..i], xml).Ok? && TextQuery(xml, xml.parse(blocks[i].s), KeywordPath).Ok?
    ensures BlockTags(blocks[..i + 1], xml)
      == Ok(BlockTags(blocks[..i], xml).value + Strs(TextQuery(xml, xml.parse(blocks[i].s), KeywordPath).value))
  {
    var prefix := blocks[..i + 1];
    assert prefix[..i] == blocks[..i] && prefix[i] == blocks[i];
  }

  /** One keyword more, cleaned. */
  lemma CleanedStep(texts: seq<string>, k: nat)
    requires k < |texts|
    ensures Cleaned(texts[..k + 1]) == Cleaned(texts[..k]) + [Str(Clean(texts[k]))]
  {
    var longer, shorter := Cleaned(texts[..k + 1]), Cleaned(texts[..k]) + [Str(Clean(texts[k]))];
    assert |longer| == |shorter|;
    forall j | 0 <= j < |longer| ensures longer[j] == shorter[j] {
    }
  }

  /** One keyword more, as it is. */
  lemma StrsStep(texts: seq<string>, k: nat)
    requires k < |texts|
    ensures Strs(texts[..k + 1]) == Strs(texts[..k]) + [Str(texts[k])]
  {
    var longer, shorter := Strs(texts[..k + 1]), Strs(texts[..k]) + [Str(texts[k])];
    assert |longer| == |shorter|;
    forall j | 0 <= j < |longer| ensures longer[j] == shorter[j] {
    }
  }

  /** `for i in tag: tags.append(i)`. */
  method AppendKeywords(tags: seq<Value>, tag: seq<string>) returns (r: seq<Value>)
    ensures r == tags + Strs(tag)
  {
    r := tags;
    var k := 0;
    while k < |tag|
      invariant 0 <= k <= |tag|
      invariant r == tags + Strs(tag[..k])
    {
      StrsStep(tag, k);
      r := r + [Str(tag[k])];
      k := k + 1;
      assert r == tags + Strs(tag[..k]);
    }
    assert tag[..|tag|] == tag;
  }

  /** `for i in tag:` remove newlines and tabs, then `groups.append(i)`. */
  method AppendCleaned(groups: seq<Value>, tag: seq<string>) returns (r: seq<Value>)
    ensures r == groups + Cleaned(tag)
  {
    r := groups;
    var k := 0;
    while k < |tag|
      invariant 0 <= k <= |tag|
      invariant r == groups + Cleaned(tag[..k])
    {
      CleanedStep(tag, k);
      var i := ReplaceAll(tag[k], "\n", "");
      i := ReplaceAll(i, "\t", "");
      r := r + [Str(i)];
      k := k + 1;
      assert r == groups + Cleaned(tag[..k]);
    }
    assert tag[..|tag|] == tag;
  }

  /** The loop of `infer_groups` over the blocks of `keyword-list-with-thesaurus`; `Err` is what a query raises. */
  method SortThesaurusBlocks<N>(blocks: seq<Value>, xml: Xml<N>) returns (r: Result<Sorted>)
    requires AllText(blocks)
    ensures r.Ok? <==> SortBlocks(blocks, xml).Ok?
    ensures r.Ok? ==> r.value == SortBlocks(blocks, xml).value
  {
    var groups: seq<Value> := [];
    var tags: seq<Value> := [];
    var i := 0;
    while i < |blocks|
      invariant 0 <= i <= |blocks|
      invariant SortBlocks(blocks[..i], xml) == Ok(Sorted(groups, tags))
    {
      assert blocks[..i + 1][..i] == blocks[..i] && blocks[..i + 1][i] == blocks[i];
      var tree := xml.parse(blocks[i].s);
      var titles := TextQuery(xml, tree, TitlePath);
      if titles.Err? {
        SortBlocksSucceeds(blocks, xml);
        return Err(titles.error);
      }
      var keywords := TextQuery(xml, tree, KeywordPath);
      if keywords.Err? {
        SortBlocksSucceeds(blocks, xml);
        return Err(keywords.error);
      }
      var tag := keywords.value;
      SortBlocksExtend(blocks, xml, i);
      ghost var more := BlockKeywords(blocks[i].s, xml).value;
      ghost var priorGroups, priorTags := groups, tags;
      if GroupThesaurus in titles.value {
        groups := AppendCleaned(groups, tag);
        assert more == Sorted(Cleaned(tag), []);
      } else {
        tags := AppendKeywords(tags, tag);
        assert more == Sorted([], Strs(tag));
      }
      assert groups == priorGroups + more.groups && tags == priorTags + more.tags;
      i := i + 1;
      assert SortBlocks(blocks[..i], xml) == Ok(Sorted(groups, tags));
    }
    assert blocks[..|blocks|] == blocks;
    r := Ok(Sorted(groups, tags));
  }

  /**
   * The loop of `infer_special_tags` over the blocks of
   * `keyword-list-without-thesaurus`: their keywords appended to `tags`;
   * `Err` is what a query raises.
   */
  method AppendBlockKeywords<N>(tags: seq<Value>, blocks: seq<Value>, xml: Xml<N>) returns (r: Result<seq<Value>>)
    requires AllText(blocks)
    ensures r.Ok? <==> BlockTags(blocks, xml).Ok?
    ensures r.Ok? ==> r.value == tags + BlockTags(blocks, xml).value
  {
    var all := tags;
    var i := 0;
    while i < |blocks|
      invariant 0 <= i <= |blocks|
      invariant BlockTags(blocks[..i], xml).Ok?
      invariant all == tags + BlockTags(blocks[..i], xml).value
    {
      assert blocks[..i + 1][..i] == blocks[..i] && blocks[..i + 1][i] == blocks[i];
      var tree := xml.parse(blocks[i].s);
      var keywords := TextQuery(xml, tree, KeywordPath);
      if keywords.Err? {
        return Err(keywords.error);
      }
      var tag := keywords.value;
      BlockTagsExtend(blocks, xml, i);
      ghost var seen := BlockTags(blocks[..i], xml).value;
      all := AppendKeywords(all, tag);
      ConcatAssociative(tags, seen, Strs(tag));
      i := i + 1;
      assert all == tags + BlockTags(blocks[..i], xml).value;
    }
    assert blocks[..|blocks|] == blocks;
    r := Ok(all);
  }

  /**
   * The first loop of `infer_special_url`: the url of the last
   * further-information locator (the one whose write to `further_info`
   * stands), the `Basisdaten` names, and the extracted locators.
   */
  method ScanLocators(locs: seq<Value>) returns (furtherInfo: Option<Value>, usedDatasets: seq<Value>, found: seq<Value>)
    requires AllLocators(locs)
    ensures furtherInfo == FurtherInfoUrl(locs)
    ensures usedDatasets == UsedDatasets(locs)
    ensures found == FoundBy(locs, FurtherInfoLocator, BasisdatenLocator)
  {
    furtherInfo := None;
    usedDatasets := [];
    found := [];
    var i := 0;
    while i < |locs|
      invariant 0 <= i <= |locs|
      invariant furtherInfo == FurtherInfoUrl(locs[..i])
      invariant usedDatasets == UsedDatasets(locs[..i])
      invariant found == FoundBy(locs[..i], FurtherInfoLocator, BasisdatenLocator)
    {
      var locator := locs[i];
      var info := FurtherInfoName(Name(locator));
      var basis := BasisdatenName(Name(locator));
      ScanLocatorsStep(locs, i, furtherInfo, usedDatasets, found);
      if info {
        furtherInfo := Some(locator.fields["url"]);
      }
      if basis {
        usedDatasets := usedDatasets + [locator.fields["name"]];
      }
      found := found + (if info then [locator] else []) + (if basis then [locator] else []);
      i := i + 1;
    }
    assert locs[..|locs|] == locs;
  }

  /** The value dictionary of one harvested INSPIRE document, which the steps update in place. */
  class InspireValues {
    var values: map<string, Value>

    constructor (read: map<string, Value>)
      ensures values == read
    {
      values := read;
    }

    /** `infer_date_released`. */
    method InferDateReleased()
      requires Ready(values)
      modifies this
      ensures values == old(values)["date-released" := List(DatesOfType(old(values), "publication"))]
    {
      var value := CollectDates(values, "publication");
      values := values["date-released" := List(value)];
    }

    /** `infer_date_updated`. */
    method InferDateUpdated()
      requires Ready(values)
      modifies this
      ensures values == old(values)["date-updated" := List(DatesOfType(old(values), "revision"))]
    {
      var value := CollectDates(values, "revision");
      values := values["date-updated" := List(value)];
    }

    /** `infer_date_created`. */
    method InferDateCreated()
      requires Ready(values)
      modifies this
      ensures values == old(values)["date-created" := List(DatesOfType(old(values), "creation"))]
    {
      var value := CollectDates(values, "creation");
      values := values["date-created" := List(value)];
    }

    /** The second loop of `infer_special_url`: `values['resource-locator'].remove(resource)` for each found one. */
    method RemoveFound(found: seq<Value>) returns (ok: bool)
      requires "resource-locator" in values && values["resource-locator"].List?
      modifies this
      ensures var locs := old(values)["resource-locator"].items;
        ok <==> RemoveEach(locs, found).Some?
      ensures var locs := old(values)["resource-locator"].items;
        ok ==> values == old(values)["resource-locator" := List(RemoveEach(locs, found).value)]
    {
      var j := 0;
      while j < |found|
        invariant 0 <= j <= |found|
        invariant "resource-locator" in values && values["resource-locator"].List?
        invariant RemoveEach(old(values)["resource-locator"].items, found[..j]) == Some(values["resource-locator"].items)
        invariant values == old(values)["resource-locator" := values["resource-locator"]]
      {
        assert found[..j + 1][..j] == found[..j];
        var removed := ListRemove(values["resource-locator"].items, found[j]);
        if removed.None? {
          RemoveEachStops(old(values)["resource-locator"].items, found, j + 1);
          return false;
        }
        values := values["resource-locator" := List(removed.value)];
        j := j + 1;
      }
      assert found[..|found|] == found;
      ok := true;
    }

    /**
     * `infer_special_url`: the scan, then `used_datasets`, then the
     * removals. `false` is the ValueError of a removal that finds no copy
     * left.
     */
    method InferSpecialUrl() returns (ok: bool)
      requires Ready(values)
      modifies this
      ensures ok <==> SpecialUrlOf(old(values)).Ok?
      ensures ok ==> values == SpecialUrlOf(old(values)).value
    {
      var furtherInfo, usedDatasets, found := ScanLocators(values["resource-locator"].items);
      if furtherInfo.Some? {
        values := values["further_info" := furtherInfo.value];
      }
      values := values["used_datasets" := List(usedDatasets)];
      ok := RemoveFound(found);
    }

    /** `infer_url`: the first locator whose function is `information` gives `url`. */
    method InferUrl()
      requires Ready(values)
      modifies this
      ensures values == old(values)["url" := InformationUrl(old(values)["resource-locator"].items)]
    {
      var locs := values["resource-locator"].items;
      var value := Str("");
      var i := 0;
      while i < |locs|
        invariant 0 <= i <= |locs|
        invariant forall j | 0 <= j < i :: !IsInformation(locs[j])
      {
        if IsInformation(locs[i]) {
          value := locs[i].fields["url"];
          assert FirstInformationAt(locs, i);
          break;
        }
        i := i + 1;
      }
      values := values["url" := value];
    }

    /** `infer_tags`. */
    method InferTags()
      requires Ready(values)
      modifies this
      ensures values == old(values)["tags" := List(TagUnion(old(values)))]
    {
      var tags := MergeKeywords(values, []);
      values := values["tags" := List(tags)];
    }

    /** `infer_publisher`: the scan stops at the first publisher with a non-empty name. */
    method InferPublisher()
      requires Ready(values)
      modifies this
      ensures values == old(values)["publisher" := PublisherOf(old(values)["responsible-organisation"].items)]
    {
      var parties := values["responsible-organisation"].items;
      var value := Str("");
      var i := 0;
      while i < |parties|
        invariant 0 <= i <= |parties|
        invariant value == Str("")
        invariant forall j | 0 <= j < i :: !NamedPublisher(parties[j])
      {
        var party := parties[i];
        if party.fields["role"] == Str("publisher") {
          value := OrganisationName(party);
        }
        if Truthy(value) {
          assert FirstPublisherAt(parties, i);
          break;
        }
        i := i + 1;
      }
      values := values["publisher" := value];
    }

    /** `infer_contact`: the scan stops at the first party with a non-empty name. */
    method InferContact()
      requires Ready(values)
      modifies this
      ensures values == old(values)["contact" := ContactOf(old(values)["responsible-organisation"].items)]
    {
      var parties := values["responsible-organisation"].items;
      var value := Str("");
      var i := 0;
      while i < |parties|
        invariant 0 <= i <= |parties|
        invariant value == Str("")
        invariant forall j | 0 <= j < i :: !Truthy(OrganisationName(parties[j]))
      {
        value := OrganisationName(parties[i]);
        if Truthy(value) {
          assert FirstNamedAt(parties, i);
          break;
        }
        i := i + 1;
      }
      values := values["contact" := value];
    }

    /**
     * `infer_groups`: the keywords of the blocks of
     * `keyword-list-with-thesaurus` replace `groups` and `tags`; `false` is
     * the error a query raises.
     */
    method InferGroups<N>(xml: Xml<N>) returns (ok: bool)
      requires Ready(values)
      modifies this
      ensures ok <==> GroupsOf(old(values), xml).Ok?
      ensures ok ==> values == GroupsOf(old(values), xml).value
    {
      var sorted := SortThesaurusBlocks(values["keyword-list-with-thesaurus"].items, xml);
      if sorted.Err? {
        return false;
      }
      values := values["groups" := List(sorted.value.groups)];
      values := values["tags" := List(sorted.value.tags)];
      ok := true;
    }

    /**
     * `infer_special_tags`. `tags` is the list stored under `tags`, so what
     * is appended to it is in both entries; the model stores the final list
     * under both keys. `false` is the error a keyword query raises.
     */
    method InferSpecialTags<N>(xml: Xml<N>) returns (ok: bool)
      requires Ready(values) && "tags" in values && Texts(values["tags"])
      modifies this
      ensures ok <==> SpecialTagsOf(old(values), xml).Ok?
      ensures ok ==> values == SpecialTagsOf(old(values), xml).value
    {
      var tags := values["tags"].items;
      var size := |values["keyword-list-with-thesaurus"].items|;
      if size > 0 {
        var appended := AppendBlockKeywords(tags, values["keyword-list-without-thesaurus"].items, xml);
        if appended.Err? {
          return false;
        }
        tags := appended.value;
      } else {
        tags := MergeKeywords(values, tags);
      }
      values := values["tags" := List(tags)];
      values := values["special_tags" := List(tags)];
      ok := true;
    }

    /**
     * `infer_pointOfContact`: every party with a `contact-info` dictionary
     * writes its six `<role>-*` entries; absent entries are `''`.
     */
    method InferPointOfContact()
      requires "responsible-organisation" in values && Parties(values["responsible-organisation"])
      modifies this
      ensures values == PointOfContactOf(old(values), old(values)["responsible-organisation"].items)
    {
      var parties := values["responsible-organisation"].items;
      var i := 0;
      while i < |parties|
        invariant 0 <= i <= |parties|
        invariant values == PointOfContactOf(old(values), parties[..i])
      {
        var party := parties[i];
        assert parties[..i + 1][..i] == parties[..i] && parties[..i + 1][i] == party;
        if HasContactInfo(party) {
          WritePartyContact(party);
        }
        i := i + 1;
      }
      assert parties[..|parties|] == parties;
    }

    /** The body of the loop of `infer_pointOfContact` for one party with a `contact-info` dictionary. */
    method WritePartyContact(party: Value)
      requires IsParty(party) && HasContactInfo(party)
      modifies this
      ensures values == WriteContact(old(values), party)
    {
      var info := party.fields["contact-info"].fields;
      var country := Entry(info, "country").s;
      var city := Entry(info, "city").s;
      var url := Entry(info, "url");
      var area := Entry(info, "adminitrativeArea").s;
      var deliveryPoint := Entry(info, "deliveryPoint").s;
      var postalCode := Entry(info, "postalCode").s;
      var email := Entry(info, "email");
      var individualName := Entry(party.fields, "individual-name");
      var organisationName := Entry(party.fields, "organisation-name");
      var positionName := Entry(party.fields, "position-name");
      var address := "";
      if deliveryPoint != "" && postalCode != "" {
        address := deliveryPoint;
        address := address + ", " + postalCode;
        if city != "" {
          address := address + ", " + city;
        }
        if area != "" {
          address := address + ", " + area;
        }
        if country != "" {
          address := address + ", " + country;
        }
      }
      assert address == ContactAddress(info);
      var role := Role(party);
      values := values[role + "-address" := Str(address)];
      values := values[role + "-email" := email];
      values := values[role + "-individual-name" := individualName];
      values := values[role + "-organisation-name" := organisationName];
      values := values[role + "-position-name" := positionName];
      values := values[role + "-url" := url];
    }

    /** The three date steps of `infer_values`. */
    method InferDates()
      requires Ready(values)
      modifies this
      ensures values == DatesStage(old(values))
    {
      InferDateReleased();
      InferDateUpdated();
      InferDateCreated();
    }

    /** The two locator steps of `infer_values`; `false` when `infer_special_url` raises. */
    method InferLocators() returns (ok: bool)
      requires Ready(values)
      modifies this
      ensures ok <==> LocatorStage(old(values)).Ok?
      ensures ok ==> values == LocatorStage(old(values)).value
    {
      ok := InferSpecialUrl();
      if ok {
        InferUrl();
      }
    }

    /** The three steps of `infer_values` that read the keyword fields and the parties. */
    method InferParties()
      requires Ready(values)
      modifies this
      ensures values == PartyStage(old(values))
    {
      InferTags();
      InferPublisher();
      InferContact();
    }

    /** The two keyword-block steps of `infer_values`; `false` when a query raises. */
    method InferKeywords<N>(xml: Xml<N>) returns (ok: bool)
      requires Ready(values)
      modifies this
      ensures ok <==> KeywordStage(old(values), xml).Ok?
      ensures ok ==> values == KeywordStage(old(values), xml).value
    {
      ok := InferGroups(xml);
      if ok {
        ok := InferSpecialTags(xml);
      }
    }

    /** `infer_values`: the eleven steps in order; `false` when one of them raises. */
    method Infer<N>(xml: Xml<N>) returns (ok: bool)
      requires Ready(values)
      modifies this
      ensures ok <==> InferValuesOf(old(values), xml).Ok?
      ensures ok ==> values == InferValuesOf(old(values), xml).value
    {
      InferDates();
      ok := InferLocators();
      if !ok {
        return;
      }
      InferParties();
      ok := InferKeywords(xml);
      if !ok {
        return;
      }
      InferPointOfContact();
    }
  }
}
