/**
 * `InspireDocument.infer_values` (ckanext/spatial/model/harvested_metadata.py:1099-1330):
 * eleven steps, run in order, that derive further entries of the value
 * dictionary `read_values` produced. Each step is a function of the
 * dictionary here; the class `InspireValues` performs the steps in place as
 * the source does, and each of its methods is proved to compute its function.
 *
 * A step that raises returns `Err`; `read_values` then raises and its
 * dictionary is discarded, so the state after a failed step is not specified.
 */
module Inference {
  import opened PyText
  import opened FieldMapper

  // ---------------------------------------------------------------------
  // The shapes the steps read (all established by `read_values`)
  // ---------------------------------------------------------------------

  predicate HasFields(v: Value, keys: set<string>)
  {
    v.Obj? && keys <= v.fields.Keys
  }

  /** A `GeminiReferenceDate` dictionary. */
  predicate IsDate(v: Value)
  {
    HasFields(v, {"type", "value"})
  }

  /** A `GeminiResourceLocator` dictionary, whose `name` is a string. */
  predicate IsLocator(v: Value)
  {
    HasFields(v, {"url", "function", "name"}) && v.fields["name"].Str?
  }

  /** A dictionary whose entries are all strings. */
  predicate TextFields(fields: map<string, Value>)
  {
    forall k | k in fields :: fields[k].Str?
  }

  /**
   * A `GeminiResponsibleParty` dictionary: string entries, and a
   * `contact-info` that is `''` or a dictionary of strings.
   */
  predicate IsParty(v: Value)
  {
    HasFields(v, {"organisation-name", "role"})
    && (forall k | k in v.fields && k != "contact-info" :: v.fields[k].Str?)
    && ("contact-info" in v.fields && v.fields["contact-info"].Obj? ==> TextFields(v.fields["contact-info"].fields))
  }

  predicate AllText(s: seq<Value>)
  {
    forall i | 0 <= i < |s| :: s[i].Str?
  }

  predicate AllDates(s: seq<Value>)
  {
    forall i | 0 <= i < |s| :: IsDate(s[i])
  }

  predicate AllLocators(s: seq<Value>)
  {
    forall i | 0 <= i < |s| :: IsLocator(s[i])
  }

  predicate AllParties(s: seq<Value>)
  {
    forall i | 0 <= i < |s| :: IsParty(s[i])
  }

  predicate Texts(v: Value)
  {
    v.List? && AllText(v.items)
  }

  predicate Dates(v: Value)
  {
    v.List? && AllDates(v.items)
  }

  predicate Locators(v: Value)
  {
    v.List? && AllLocators(v.items)
  }

  predicate Parties(v: Value)
  {
    v.List? && AllParties(v.items)
  }

  /** What `infer_values` reads, with the shapes `read_values` gives it. */
  predicate Ready(m: map<string, Value>)
  {
    && "service-date" in m && Dates(m["service-date"])
    && "dataset-date" in m && Dates(m["dataset-date"])
    && "resource-locator" in m && Locators(m["resource-locator"])
    && "keyword-inspire-theme" in m && Texts(m["keyword-inspire-theme"])
    && "keyword-controlled-other" in m && Texts(m["keyword-controlled-other"])
    && "keyword-free-text" in m && Texts(m["keyword-free-text"])
    && "responsible-organisation" in m && Parties(m["responsible-organisation"])
    && "keyword-list-with-thesaurus" in m && Texts(m["keyword-list-with-thesaurus"])
    && "keyword-list-without-thesaurus" in m && Texts(m["keyword-list-without-thesaurus"])
  }

  /** Python truthiness of a value. */
  predicate Truthy(v: Value)
  {
    match v
    case Str(s) => s != ""
    case List(items) => items != []
    case Obj(fields) => fields != map[]
  }

  // ---------------------------------------------------------------------
  // infer_date_released / infer_date_updated / infer_date_created
  // ---------------------------------------------------------------------

  /** The `value` entries of the dates whose `type` is `dateType`, in list order. */
  function TypedValues(dates: seq<Value>, dateType: string): (r: seq<Value>)
    requires AllDates(dates)
    ensures forall v :: v in r <==>
      exists i | 0 <= i < |dates| :: dates[i].fields["type"] == Str(dateType) && dates[i].fields["value"] == v
  {
    if |dates| == 0 then []
    else
      var init := dates[..|dates| - 1];
      var d := dates[|dates| - 1];
      if d.fields["type"] == Str(dateType) then TypedValues(init, dateType) + [d.fields["value"]]
      else TypedValues(init, dateType)
  }

  /** The candidates in scan order: `service-date` first, then `dataset-date`. */
  function DateCandidates(m: map<string, Value>, dateType: string): seq<Value>
    requires Ready(m)
  {
    TypedValues(m["service-date"].items, dateType) + TypedValues(m["dataset-date"].items, dateType)
  }

  /**
   * The list stored under `date-released` (`publication`), `date-updated`
   * (`revision`) or `date-created` (`creation`): the candidates' values
   * without duplicates, in the order they are first seen.
   */
  function DatesOfType(m: map<string, Value>, dateType: string): (r: seq<Value>)
    requires Ready(m)
    ensures NoDuplicates(r)
    ensures forall v :: v in r <==> v in DateCandidates(m, dateType)
    ensures r == FirstOccurrences([], DateCandidates(m, dateType))
  {
    var candidates := DateCandidates(m, dateType);
    AppendNewSpec([], candidates);
    AppendNewIsFirstOccurrences([], candidates);
    AppendNew([], candidates)
  }

  // ---------------------------------------------------------------------
  // infer_special_url
  // ---------------------------------------------------------------------

  function Name(loc: Value): string
    requires IsLocator(loc)
  {
    loc.fields["name"].s
  }

  /** The further-information patterns of the locator name. */
  predicate FurtherInfoName(name: string)
  {
    (Contains(name, "Weitere Informationen") && Contains(name, "den Datensatz"))
    || (Contains(name, "URL zu weiteren Informationen") && Contains(name, "den Datensatz"))
  }

  predicate BasisdatenName(name: string)
  {
    Contains(name, "Basisdaten")
  }

  predicate FurtherInfoLocator(v: Value)
  {
    IsLocator(v) && FurtherInfoName(Name(v))
  }

  predicate BasisdatenLocator(v: Value)
  {
    IsLocator(v) && BasisdatenName(Name(v))
  }

  /**
   * The scan's `found_resources`, for a list `xs` and the two tests `a` and
   * `b`: each element once per test it passes, in list order.
   */
  function FoundBy<T>(xs: seq<T>, a: T -> bool, b: T -> bool): (r: seq<T>)
    ensures forall x | x in r :: x in xs && (a(x) || b(x))
  {
    if |xs| == 0 then []
    else
      var init := xs[..|xs| - 1];
      var x := xs[|xs| - 1];
      assert forall y | y in init :: y in xs;
      FoundBy(init, a, b) + FoundOne(x, a, b)
  }

  /** The elements passing neither test, in list order. */
  function KeptBy<T>(xs: seq<T>, a: T -> bool, b: T -> bool): (r: seq<T>)
    ensures forall x | x in r :: x in xs && !a(x) && !b(x)
  {
    if |xs| == 0 then []
    else
      var init := xs[..|xs| - 1];
      var x := xs[|xs| - 1];
      assert forall y | y in init :: y in xs;
      KeptBy(init, a, b) + (if a(x) || b(x) then [] else [x])
  }

  /** What one element adds to `FoundBy`. */
  function FoundOne<T>(x: T, a: T -> bool, b: T -> bool): seq<T>
  {
    (if a(x) then [x] else []) + (if b(x) then [x] else [])
  }

  lemma FoundOneCount<T>(x: T, a: T -> bool, b: T -> bool, v: T)
    ensures multiset(FoundOne(x, a, b))[v] ==
      if v != x then 0 else (if a(x) then 1 else 0) + (if b(x) then 1 else 0)
  {
  }

  lemma {:induction false} FoundByCount<T>(xs: seq<T>, a: T -> bool, b: T -> bool, v: T)
    ensures !a(v) && !b(v) ==> multiset(FoundBy(xs, a, b))[v] == 0
    ensures a(v) != b(v) ==> multiset(FoundBy(xs, a, b))[v] == multiset(xs)[v]
    ensures a(v) && b(v) ==> multiset(FoundBy(xs, a, b))[v] == 2 * multiset(xs)[v]
    decreases |xs|
  {
    if |xs| > 0 {
      var init := xs[..|xs| - 1];
      var x := xs[|xs| - 1];
      assert xs == init + [x];
      assert multiset(xs)[v] == multiset(init)[v] + (if v == x then 1 else 0);
      FoundByCount(init, a, b, v);
      FoundOneCount(x, a, b, v);
      assert multiset(FoundBy(xs, a, b)) == multiset(FoundBy(init, a, b)) + multiset(FoundOne(x, a, b));
    }
  }

  /** An element passing both tests is found twice but present only once per copy: a removal fails. */
  lemma FoundTwiceFails<T>(xs: seq<T>, a: T -> bool, b: T -> bool, i: nat)
    requires i < |xs| && a(xs[i]) && b(xs[i])
    ensures RemoveEach(xs, FoundBy(xs, a, b)).None?
  {
    var found := FoundBy(xs, a, b);
    RemoveEachMultiset(xs, found);
    FoundByCount(xs, a, b, xs[i]);
    assert multiset(xs)[xs[i]] > 0;
    assert multiset(found)[xs[i]] > multiset(xs)[xs[i]];
  }

  lemma {:induction false} IndexOfAppend<T>(xs: seq<T>, ys: seq<T>, x: T)
    requires x in xs
    ensures IndexOf(xs + ys, x) == IndexOf(xs, x)
    decreases |xs|
  {
    if xs[0] != x {
      assert (xs + ys)[1..] == xs[1..] + ys;
      IndexOfAppend(xs[1..], ys, x);
    }
  }

  lemma ListRemoveAppend<T>(xs: seq<T>, x: T, z: T)
    requires x in xs
    ensures ListRemove(xs + [z], x) == Some(ListRemove(xs, x).value + [z])
  {
    var i := IndexOf(xs, x);
    var ys := xs + [z];
    IndexOfAppend(xs, [z], x);
    assert x in ys;
    assert ListRemove(ys, x) == Some(ys[..i] + ys[i + 1..]);
    assert ys[..i] == xs[..i];
    assert ys[i + 1..] == xs[i + 1..] + [z];
    assert ListRemove(xs, x) == Some(xs[..i] + xs[i + 1..]);
    assert ys[..i] + ys[i + 1..] == (xs[..i] + xs[i + 1..]) + [z];
  }

  lemma ListRemoveLast<T>(xs: seq<T>, z: T)
    requires z !in xs
    ensures ListRemove(xs + [z], z) == Some(xs)
  {
    var ys := xs + [z];
    var i := IndexOf(ys, z);
    assert ListRemove(ys, z) == Some(ys[..i] + ys[i + 1..]);
    assert i == |xs|;
    assert ys[..i] == xs;
    assert ys[i + 1..] == [];
    assert ys[..i] + ys[i + 1..] == xs;
  }

  /** Removals that succeed on `xs` succeed in the same places on `xs + [z]`. */
  lemma {:induction false} RemoveEachAppend<T>(xs: seq<T>, ys: seq<T>, z: T)
    requires RemoveEach(xs, ys).Some?
    ensures RemoveEach(xs + [z], ys) == Some(RemoveEach(xs, ys).value + [z])
    decreases |ys|
  {
    if |ys| > 0 {
      RemoveEachAppend(xs, ys[..|ys| - 1], z);
      ListRemoveAppend(RemoveEach(xs, ys[..|ys| - 1]).value, ys[|ys| - 1], z);
    }
  }

  /** With no element passing both tests, removing the found ones leaves the others in order. */
  lemma {:induction false} FoundByRemovedInOrder<T>(xs: seq<T>, a: T -> bool, b: T -> bool)
    requires forall i | 0 <= i < |xs| :: !(a(xs[i]) && b(xs[i]))
    ensures RemoveEach(xs, FoundBy(xs, a, b)) == Some(KeptBy(xs, a, b))
    decreases |xs|
  {
    if |xs| > 0 {
      var init := xs[..|xs| - 1];
      var x := xs[|xs| - 1];
      assert init + [x] == xs;
      assert forall i | 0 <= i < |init| :: init[i] == xs[i];
      FoundByRemovedInOrder(init, a, b);
      var found, kept := FoundBy(init, a, b), KeptBy(init, a, b);
      RemoveEachAppend(init, found, x);
      assert RemoveEach(xs, found) == Some(kept + [x]);
      if a(x) || b(x) {
        assert FoundOne(x, a, b) == [x];
        assert FoundBy(xs, a, b) == found + [x];
        assert (found + [x])[..|found|] == found;
        ListRemoveLast(kept, x);
        assert KeptBy(xs, a, b) == kept;
      } else {
        assert FoundOne(x, a, b) == [];
        assert FoundBy(xs, a, b) == found;
        assert KeptBy(xs, a, b) == kept + [x];
      }
    }
  }

  /** `used_datasets`: the names containing `Basisdaten`, in order. */
  function UsedDatasets(locs: seq<Value>): (r: seq<Value>)
    requires AllLocators(locs)
    ensures forall v | v in r :: v.Str? && BasisdatenName(v.s)
    ensures forall i | 0 <= i < |locs| && BasisdatenName(Name(locs[i])) :: locs[i].fields["name"] in r
  {
    if |locs| == 0 then []
    else
      var init := locs[..|locs| - 1];
      var loc := locs[|locs| - 1];
      UsedDatasets(init) + (if BasisdatenName(Name(loc)) then [loc.fields["name"]] else [])
  }

  /** Locator `i` is the last one matching a further-information pattern. */
  predicate LastFurtherInfoAt(locs: seq<Value>, i: int)
    requires AllLocators(locs)
  {
    0 <= i < |locs| && FurtherInfoName(Name(locs[i]))
    && forall j | i < j < |locs| :: !FurtherInfoName(Name(locs[j]))
  }

  /** `further_info`: the url of the last further-information locator, if any. */
  function FurtherInfoUrl(locs: seq<Value>): (r: Option<Value>)
    requires AllLocators(locs)
    ensures r.None? <==> forall i | 0 <= i < |locs| :: !FurtherInfoName(Name(locs[i]))
    ensures forall i | LastFurtherInfoAt(locs, i) :: r == Some(locs[i].fields["url"])
  {
    if |locs| == 0 then None
    else
      var init := locs[..|locs| - 1];
      var loc := locs[|locs| - 1];
      if FurtherInfoName(Name(loc)) then Some(loc.fields["url"])
      else
        assert forall i | LastFurtherInfoAt(locs, i) :: LastFurtherInfoAt(init, i);
        FurtherInfoUrl(init)
  }

  /** The dictionary with `further_info` set, if a url was found. */
  function WithFurtherInfo(m: map<string, Value>, url: Option<Value>): map<string, Value>
  {
    match url
    case None => m
    case Some(u) => m["further_info" := u]
  }

  /** The dictionary after `infer_special_url`; `Err(NotInList)` is the ValueError of `remove`. */
  function SpecialUrlOf(m: map<string, Value>): (r: Result<map<string, Value>>)
    requires Ready(m)
    ensures r.Ok? ==> Ready(r.value)
    ensures r.Ok? ==> forall k | k in m && k != "further_info" && k != "used_datasets" && k != "resource-locator" ::
      k in r.value && r.value[k] == m[k]
  {
    var locs := m["resource-locator"].items;
    var withInfo := WithFurtherInfo(m, FurtherInfoUrl(locs));
    var withUsed := withInfo["used_datasets" := List(UsedDatasets(locs))];
    var found := FoundBy(locs, FurtherInfoLocator, BasisdatenLocator);
    match RemoveEach(locs, found)
    case None => Err(NotInList)
    case Some(rest) =>
      RemovalLeavesLocators(locs, found);
      Ok(withUsed["resource-locator" := List(rest)])
  }

  /** What the removals leave are locators of the list. */
  lemma RemovalLeavesLocators(locs: seq<Value>, found: seq<Value>)
    requires AllLocators(locs) && RemoveEach(locs, found).Some?
    ensures AllLocators(RemoveEach(locs, found).value)
  {
    var rest := RemoveEach(locs, found).value;
    RemoveEachMultiset(locs, found);
    forall i | 0 <= i < |rest| ensures IsLocator(rest[i]) {
      assert rest[i] in multiset(rest);
      assert rest[i] in multiset(locs);
      var j :| 0 <= j < |locs| && locs[j] == rest[i];
    }
  }

  /**
   * `infer_special_url` raises ValueError exactly when some locator matches
   * both a further-information pattern and `Basisdaten`: it is listed twice
   * in `found_resources`, and the second `remove` finds no copy left.
   */
  lemma SpecialUrlFails(m: map<string, Value>)
    requires Ready(m)
    ensures var locs := m["resource-locator"].items;
      SpecialUrlOf(m).Err? <==> exists i | 0 <= i < |locs| :: FurtherInfoLocator(locs[i]) && BasisdatenLocator(locs[i])
  {
    var locs := m["resource-locator"].items;
    if exists i | 0 <= i < |locs| :: FurtherInfoLocator(locs[i]) && BasisdatenLocator(locs[i]) {
      var i :| 0 <= i < |locs| && FurtherInfoLocator(locs[i]) && BasisdatenLocator(locs[i]);
      FoundTwiceFails(locs, FurtherInfoLocator, BasisdatenLocator, i);
    } else {
      FoundByRemovedInOrder(locs, FurtherInfoLocator, BasisdatenLocator);
    }
  }

  /**
   * Otherwise the extracted locators are removed and the others keep their
   * order; `used_datasets` and `further_info` are set as the scan found them.
   */
  lemma SpecialUrlResult(m: map<string, Value>)
    requires Ready(m)
    requires var locs := m["resource-locator"].items;
      forall i | 0 <= i < |locs| :: !(FurtherInfoLocator(locs[i]) && BasisdatenLocator(locs[i]))
    ensures SpecialUrlOf(m).Ok?
    ensures var locs := m["resource-locator"].items;
      var r := SpecialUrlOf(m).value;
      && r["resource-locator"] == List(KeptBy(locs, FurtherInfoLocator, BasisdatenLocator))
      && r["used_datasets"] == List(UsedDatasets(locs))
      && (FurtherInfoUrl(locs).Some? ==> r["further_info"] == FurtherInfoUrl(locs).value)
      && (FurtherInfoUrl(locs).None? ==> ("further_info" in r <==> "further_info" in m))
  {
    var locs := m["resource-locator"].items;
    assert forall i | 0 <= i < |locs| :: !(FurtherInfoLocator(locs[i]) && BasisdatenLocator(locs[i]));
    FoundByRemovedInOrder(locs, FurtherInfoLocator, BasisdatenLocator);
    var used, kept := List(UsedDatasets(locs)), List(KeptBy(locs, FurtherInfoLocator, BasisdatenLocator));
    assert SpecialUrlOf(m) == Ok(WithFurtherInfo(m, FurtherInfoUrl(locs))["used_datasets" := used]["resource-locator" := kept]);
    SpecialUrlWrites(m, FurtherInfoUrl(locs), used, kept);
  }

  /** The three writes of `infer_special_url`, on any dictionary. */
  lemma SpecialUrlWrites(m: map<string, Value>, url: Option<Value>, used: Value, kept: Value)
    ensures var r := WithFurtherInfo(m, url)["used_datasets" := used]["resource-locator" := kept];
      && r["resource-locator"] == kept && r["used_datasets"] == used
      && (url.Some? ==> "further_info" in r && r["further_info"] == url.value)
      && (url.None? ==> ("further_info" in r <==> "further_info" in m))
  {
    assert "further_info" != "used_datasets" && "further_info" != "resource-locator";
  }

  // ---------------------------------------------------------------------
  // infer_url
  // ---------------------------------------------------------------------

  predicate IsInformation(loc: Value)
    requires IsLocator(loc)
  {
    loc.fields["function"] == Str("information")
  }

  /** Locator `k` is the first whose function is `information`. */
  predicate FirstInformationAt(locs: seq<Value>, k: int)
    requires AllLocators(locs)
  {
    0 <= k < |locs| && IsInformation(locs[k]) && forall j | 0 <= j < k :: !IsInformation(locs[j])
  }

  /** `url`: the url of the first locator whose function is `information`, else `''`. */
  function InformationUrl(locs: seq<Value>): (r: Value)
    requires AllLocators(locs)
    ensures (forall i | 0 <= i < |locs| :: !IsInformation(locs[i])) ==> r == Str("")
    ensures forall k | FirstInformationAt(locs, k) :: r == locs[k].fields["url"]
  {
    if |locs| == 0 then Str("")
    else if IsInformation(locs[0]) then locs[0].fields["url"]
    else
      var rest := locs[1..];
      assert forall k | FirstInformationAt(locs, k) :: FirstInformationAt(rest, k - 1);
      InformationUrl(rest)
  }

  // ---------------------------------------------------------------------
  // infer_tags
  // ---------------------------------------------------------------------

  function KeywordCandidates(m: map<string, Value>): seq<Value>
    requires Ready(m)
  {
    m["keyword-inspire-theme"].items + m["keyword-controlled-other"].items + m["keyword-free-text"].items
  }

  /** `tags`: the keywords of the three keyword fields, without duplicates, in first-seen order. */
  function TagUnion(m: map<string, Value>): (r: seq<Value>)
    requires Ready(m)
    ensures NoDuplicates(r)
    ensures forall v :: v in r <==> v in KeywordCandidates(m)
    ensures r == FirstOccurrences([], KeywordCandidates(m))
  {
    var candidates := KeywordCandidates(m);
    AppendNewSpec([], candidates);
    AppendNewIsFirstOccurrences([], candidates);
    AppendNew([], candidates)
  }

  // ---------------------------------------------------------------------
  // infer_publisher and infer_contact
  // ---------------------------------------------------------------------

  function OrganisationName(p: Value): Value
    requires IsParty(p)
  {
    p.fields["organisation-name"]
  }

  predicate NamedPublisher(p: Value)
    requires IsParty(p)
  {
    p.fields["role"] == Str("publisher") && Truthy(OrganisationName(p))
  }

  /** Party `k` is the first `publisher` with a non-empty organisation name. */
  predicate FirstPublisherAt(parties: seq<Value>, k: int)
    requires AllParties(parties)
  {
    0 <= k < |parties| && NamedPublisher(parties[k]) && forall j | 0 <= j < k :: !NamedPublisher(parties[j])
  }

  /** `publisher`: the first non-empty organisation name of a `publisher` party, else `''`. */
  function PublisherOf(parties: seq<Value>): (r: Value)
    requires AllParties(parties)
    ensures r.Str?
    ensures (forall i | 0 <= i < |parties| :: !NamedPublisher(parties[i])) ==> r == Str("")
    ensures forall k | FirstPublisherAt(parties, k) :: r == OrganisationName(parties[k])
  {
    if |parties| == 0 then Str("")
    else if NamedPublisher(parties[0]) then OrganisationName(parties[0])
    else
      var rest := parties[1..];
      assert forall k | FirstPublisherAt(parties, k) :: FirstPublisherAt(rest, k - 1);
      PublisherOf(rest)
  }

  /** Party `k` is the first with a non-empty organisation name. */
  predicate FirstNamedAt(parties: seq<Value>, k: int)
    requires AllParties(parties)
  {
    0 <= k < |parties| && Truthy(OrganisationName(parties[k]))
    && forall j | 0 <= j < k :: !Truthy(OrganisationName(parties[j]))
  }

  /** `contact`: the first non-empty organisation name of any party, else `''`. */
  function ContactOf(parties: seq<Value>): (r: Value)
    requires AllParties(parties)
    ensures r.Str?
    ensures (forall i | 0 <= i < |parties| :: !Truthy(OrganisationName(parties[i]))) ==> r == Str("")
    ensures forall k | FirstNamedAt(parties, k) :: r == OrganisationName(parties[k])
  {
    if |parties| == 0 then Str("")
    else if Truthy(OrganisationName(parties[0])) then OrganisationName(parties[0])
    else
      var rest := parties[1..];
      assert forall k | FirstNamedAt(parties, k) :: FirstNamedAt(rest, k - 1);
      ContactOf(rest)
  }

  // ---------------------------------------------------------------------
  // infer_groups
  // ---------------------------------------------------------------------

  const TitlePath := "gmd:thesaurusName/gmd:CI_Citation/gmd:title/gco:CharacterString/text()"
  const KeywordPath := "gmd:keyword/gco:CharacterString/text()"

  /** The thesaurus title that marks a block of category keywords. */
  const GroupThesaurus := "OGDD-Kategorien"

  /** The strings of a match list, or `None` when it holds an element. */
  function MatchTexts<N>(items: seq<Match<N>>): (r: Option<seq<string>>)
    ensures r.Some? <==> forall i | 0 <= i < |items| :: items[i].Text?
    ensures r.Some? ==> |r.value| == |items| && forall i | 0 <= i < |items| :: r.value[i] == items[i].text
  {
    if |items| == 0 then Some([])
    else
      var init := MatchTexts(items[..|items| - 1]);
      var last := items[|items| - 1];
      if init.Some? && last.Text? then Some(init.value + [last.text]) else None
  }

  /**
   * `tree.xpath(path)` for a `text()` path: its strings, or the error it
   * raises (an element in the result cannot occur for such a path).
   */
  function TextQuery<N>(xml: Xml<N>, node: N, path: string): (r: Result<seq<string>>)
    ensures xml.xpath(node, path).Invalid? ==> r == Err(XPathEvalError(path))
    ensures r.Ok? ==> xml.xpath(node, path).Found? && MatchTexts(xml.xpath(node, path).items) == Some(r.value)
  {
    match xml.xpath(node, path)
    case Invalid => Err(XPathEvalError(path))
    case Found(items) =>
      match MatchTexts(items)
      case None => Err(NotText)
      case Some(texts) => Ok(texts)
  }

  /** `re.sub('\n', '', i)` followed by `re.sub('\t', '', i)`. */
  function Clean(keyword: string): (r: string)
    ensures r == Without(Without(keyword, '\n'), '\t')
    ensures '\n' !in r && '\t' !in r
  {
    ReplaceCharDeletes(keyword, '\n');
    WithoutChars(Without(keyword, '\n'), '\t');
    ReplaceCharDeletes(ReplaceAll(keyword, "\n", ""), '\t');
    ReplaceAll(ReplaceAll(keyword, "\n", ""), "\t", "")
  }

  /** Keywords as list entries. */
  function Strs(texts: seq<string>): (r: seq<Value>)
    ensures |r| == |texts| && forall i | 0 <= i < |texts| :: r[i] == Str(texts[i])
    ensures forall v :: v in r <==> v.Str? && v.s in texts
  {
    seq(|texts|, i requires 0 <= i < |texts| => Str(texts[i]))
  }

  /** Cleaned keywords as list entries. */
  function Cleaned(texts: seq<string>): (r: seq<Value>)
    ensures |r| == |texts| && forall i | 0 <= i < |texts| :: r[i] == Str(Clean(texts[i]))
  {
    seq(|texts|, i requires 0 <= i < |texts| => Str(Clean(texts[i])))
  }

  /** Strings free of newlines and tabs. */
  predicate Untabbed(vs: seq<Value>)
  {
    forall i | 0 <= i < |vs| :: vs[i].Str? && '\n' !in vs[i].s && '\t' !in vs[i].s
  }

  /** The keywords of one thesaurus block, sorted into `groups` or `tags`. */
  datatype Sorted = Sorted(groups: seq<Value>, tags: seq<Value>)

  /** Both queries of a block succeed. */
  predicate Queried<N>(block: string, xml: Xml<N>)
  {
    var tree := xml.parse(block);
    TextQuery(xml, tree, TitlePath).Ok? && TextQuery(xml, tree, KeywordPath).Ok?
  }

  /** A block one of whose thesaurus titles is the category thesaurus. */
  predicate GroupBlock<N>(block: string, xml: Xml<N>)
    requires Queried(block, xml)
  {
    GroupThesaurus in TextQuery(xml, xml.parse(block), TitlePath).value
  }

  function Keywords<N>(block: string, xml: Xml<N>): seq<string>
    requires Queried(block, xml)
  {
    TextQuery(xml, xml.parse(block), KeywordPath).value
  }

  /** `v` is a cleaned keyword of a category block. */
  predicate GroupOf<N>(block: string, xml: Xml<N>, v: Value)
  {
    Queried(block, xml) && GroupBlock(block, xml) && v in Cleaned(Keywords(block, xml))
  }

  /** `v` is a keyword of a block of another thesaurus. */
  predicate TagOf<N>(block: string, xml: Xml<N>, v: Value)
  {
    Queried(block, xml) && !GroupBlock(block, xml) && v.Str? && v.s in Keywords(block, xml)
  }

  /** One block: its keywords go to `groups`, cleaned, if a title is the category thesaurus, else to `tags`. */
  function BlockKeywords<N>(block: string, xml: Xml<N>): (r: Result<Sorted>)
    ensures r.Ok? <==> Queried(block, xml)
    ensures r.Ok? ==> Untabbed(r.value.groups) && AllText(r.value.tags)
  {
    var tree := xml.parse(block);
    match TextQuery(xml, tree, TitlePath)
    case Err(e) => Err(e)
    case Ok(titles) =>
      match TextQuery(xml, tree, KeywordPath)
      case Err(e) => Err(e)
      case Ok(keywords) =>
        if GroupThesaurus in titles then Ok(Sorted(Cleaned(keywords), []))
        else Ok(Sorted([], Strs(keywords)))
  }

  /** The blocks in order; the first block whose query raises stops the scan. */
  function SortBlocks<N>(blocks: seq<Value>, xml: Xml<N>): (r: Result<Sorted>)
    requires AllText(blocks)
    ensures r.Ok? ==> Untabbed(r.value.groups) && AllText(r.value.tags)
  {
    if |blocks| == 0 then Ok(Sorted([], []))
    else
      match SortBlocks(blocks[..|blocks| - 1], xml)
      case Err(e) => Err(e)
      case Ok(prior) =>
        match BlockKeywords(blocks[|blocks| - 1].s, xml)
        case Err(e) => Err(e)
        case Ok(more) => Ok(Sorted(prior.groups + more.groups, prior.tags + more.tags))
  }

  /** The sort succeeds exactly when every block can be queried. */
  lemma {:induction false} SortBlocksSucceeds<N>(blocks: seq<Value>, xml: Xml<N>)
    requires AllText(blocks)
    ensures SortBlocks(blocks, xml).Ok? <==> forall i | 0 <= i < |blocks| :: Queried(blocks[i].s, xml)
    decreases |blocks|
  {
    if |blocks| > 0 {
      var init := blocks[..|blocks| - 1];
      var last := blocks[|blocks| - 1].s;
      SortBlocksSucceeds(init, xml);
      assert forall i | 0 <= i < |init| :: init[i] == blocks[i];
      if SortBlocks(init, xml).Err? {
        var i :| 0 <= i < |init| && !Queried(init[i].s, xml);
        assert !Queried(blocks[i].s, xml);
      } else {
        assert SortBlocks(blocks, xml).Ok? <==> BlockKeywords(last, xml).Ok?;
        if !Queried(last, xml) {
          assert !Queried(blocks[|blocks| - 1].s, xml);
        } else {
          forall i | 0 <= i < |blocks| ensures Queried(blocks[i].s, xml) {
            if i < |init| {
              assert init[i] == blocks[i];
            } else {
              assert i == |blocks| - 1;
            }
          }
        }
      }
    }
  }

  /** One step of the sort: the blocks before the last, then the last block. */
  lemma SortBlocksStep<N>(blocks: seq<Value>, xml: Xml<N>)
    requires AllText(blocks) && |blocks| > 0 && SortBlocks(blocks, xml).Ok?
    ensures var init := blocks[..|blocks| - 1];
      && SortBlocks(init, xml).Ok? && BlockKeywords(blocks[|blocks| - 1].s, xml).Ok?
      && SortBlocks(blocks, xml).value.groups
        == SortBlocks(init, xml).value.groups + BlockKeywords(blocks[|blocks| - 1].s, xml).value.groups
      && SortBlocks(blocks, xml).value.tags
        == SortBlocks(init, xml).value.tags + BlockKeywords(blocks[|blocks| - 1].s, xml).value.tags
  {
  }

  /** What one block contributes to `groups` and `tags`. */
  lemma BlockMembers<N>(block: string, xml: Xml<N>, v: Value)
    requires Queried(block, xml)
    ensures v in BlockKeywords(block, xml).value.groups <==> GroupOf(block, xml, v)
    ensures v in BlockKeywords(block, xml).value.tags <==> TagOf(block, xml, v)
  {
  }

  /** Every entry of `groups` is a cleaned keyword of a category block. */
  lemma {:induction false} SortBlocksGroupsSound<N>(blocks: seq<Value>, xml: Xml<N>, v: Value)
    requires AllText(blocks) && SortBlocks(blocks, xml).Ok?
    requires v in SortBlocks(blocks, xml).value.groups
    ensures exists i | 0 <= i < |blocks| :: GroupOf(blocks[i].s, xml, v)
    decreases |blocks|
  {
    var init := blocks[..|blocks| - 1];
    var last := blocks[|blocks| - 1].s;
    SortBlocksStep(blocks, xml);
    BlockMembers(last, xml, v);
    if v in SortBlocks(init, xml).value.groups {
      SortBlocksGroupsSound(init, xml, v);
      var i :| 0 <= i < |init| && GroupOf(init[i].s, xml, v);
      assert init[i] == blocks[i];
    } else {
      assert GroupOf(blocks[|blocks| - 1].s, xml, v);
    }
  }

  /** Every cleaned keyword of a category block is in `groups`. */
  lemma SortBlocksGroupsComplete<N>(blocks: seq<Value>, xml: Xml<N>, v: Value, i: nat)
    requires AllText(blocks) && SortBlocks(blocks, xml).Ok?
    requires i < |blocks| && GroupOf(blocks[i].s, xml, v)
    ensures v in SortBlocks(blocks, xml).value.groups
  {
    BlockMembers(blocks[i].s, xml, v);
    SortBlocksHasGroups(blocks, xml, v, i);
  }

  /** The sorted `groups` hold what every block contributes. */
  lemma {:induction false} SortBlocksHasGroups<N>(blocks: seq<Value>, xml: Xml<N>, v: Value, i: nat)
    requires AllText(blocks) && SortBlocks(blocks, xml).Ok?
    requires i < |blocks| && BlockKeywords(blocks[i].s, xml).Ok?
    requires v in BlockKeywords(blocks[i].s, xml).value.groups
    ensures v in SortBlocks(blocks, xml).value.groups
    decreases |blocks|
  {
    var init := blocks[..|blocks| - 1];
    SortBlocksStep(blocks, xml);
    var prior := SortBlocks(init, xml).value.groups;
    var more := BlockKeywords(blocks[|blocks| - 1].s, xml).value.groups;
    if i < |init| {
      assert init[i] == blocks[i];
      SortBlocksHasGroups(init, xml, v, i);
      InLeftOfConcat(v, prior, more);
    } else {
      assert i == |blocks| - 1;
      InRightOfConcat(v, prior, more);
    }
  }

  lemma InLeftOfConcat<T>(v: T, a: seq<T>, b: seq<T>)
    requires v in a
    ensures v in a + b
  {
  }

  lemma InRightOfConcat<T>(v: T, a: seq<T>, b: seq<T>)
    requires v in b
    ensures v in a + b
  {
  }

  /** Every entry of `tags` is a keyword of a block of another thesaurus. */
  lemma {:induction false} SortBlocksTagsSound<N>(blocks: seq<Value>, xml: Xml<N>, v: Value)
    requires AllText(blocks) && SortBlocks(blocks, xml).Ok?
    requires v in SortBlocks(blocks, xml).value.tags
    ensures exists i | 0 <= i < |blocks| :: TagOf(blocks[i].s, xml, v)
    decreases |blocks|
  {
    var init := blocks[..|blocks| - 1];
    var last := blocks[|blocks| - 1].s;
    SortBlocksStep(blocks, xml);
    BlockMembers(last, xml, v);
    if v in SortBlocks(init, xml).value.tags {
      SortBlocksTagsSound(init, xml, v);
      var i :| 0 <= i < |init| && TagOf(init[i].s, xml, v);
      assert init[i] == blocks[i];
    } else {
      assert TagOf(blocks[|blocks| - 1].s, xml, v);
    }
  }

  /** Every keyword of a block of another thesaurus is in `tags`. */
  lemma SortBlocksTagsComplete<N>(blocks: seq<Value>, xml: Xml<N>, v: Value, i: nat)
    requires AllText(blocks) && SortBlocks(blocks, xml).Ok?
    requires i < |blocks| && TagOf(blocks[i].s, xml, v)
    ensures v in SortBlocks(blocks, xml).value.tags
  {
    BlockMembers(blocks[i].s, xml, v);
    SortBlocksHasTags(blocks, xml, v, i);
  }

  /** The sorted `tags` hold what every block contributes. */
  lemma {:induction false} SortBlocksHasTags<N>(blocks: seq<Value>, xml: Xml<N>, v: Value, i: nat)
    requires AllText(blocks) && SortBlocks(blocks, xml).Ok?
    requires i < |blocks| && BlockKeywords(blocks[i].s, xml).Ok?
    requires v in BlockKeywords(blocks[i].s, xml).value.tags
    ensures v in SortBlocks(blocks, xml).value.tags
    decreases |blocks|
  {
    var init := blocks[..|blocks| - 1];
    SortBlocksStep(blocks, xml);
    var prior := SortBlocks(init, xml).value.tags;
    var more := BlockKeywords(blocks[|blocks| - 1].s, xml).value.tags;
    if i < |init| {
      assert init[i] == blocks[i];
      SortBlocksHasTags(init, xml, v, i);
      InLeftOfConcat(v, prior, more);
    } else {
      assert i == |blocks| - 1;
      InRightOfConcat(v, prior, more);
    }
  }

  /** The dictionary after `infer_groups`: `groups` and `tags` replaced by the sort of the thesaurus blocks. */
  function GroupsOf<N>(m: map<string, Value>, xml: Xml<N>): (r: Result<map<string, Value>>)
    requires Ready(m)
    ensures r.Ok? ==> Ready(r.value) && "tags" in r.value && Texts(r.value["tags"])
    ensures r.Ok? ==> "groups" in r.value && r.value["groups"].List? && Untabbed(r.value["groups"].items)
    ensures r.Ok? ==> forall k | k in m && k != "groups" && k != "tags" :: k in r.value && r.value[k] == m[k]
    ensures r.Ok? ==> r.value.Keys <= m.Keys + {"groups", "tags"}
  {
    match SortBlocks(m["keyword-list-with-thesaurus"].items, xml)
    case Err(e) => Err(e)
    case Ok(sorted) => Ok(m["groups" := List(sorted.groups)]["tags" := List(sorted.tags)])
  }

  // ---------------------------------------------------------------------
  // infer_special_tags
  // ---------------------------------------------------------------------

  /** The keyword texts of the blocks of `keyword-list-without-thesaurus`, in order, duplicates kept. */
  function BlockTags<N>(blocks: seq<Value>, xml: Xml<N>): (r: Result<seq<Value>>)
    requires AllText(blocks)
    ensures r.Ok? <==> forall i | 0 <= i < |blocks| :: TextQuery(xml, xml.parse(blocks[i].s), KeywordPath).Ok?
    ensures r.Ok? ==> AllText(r.value)
  {
    if |blocks| == 0 then Ok([])
    else
      var init := blocks[..|blocks| - 1];
      assert forall i | 0 <= i < |init| :: init[i] == blocks[i];
      match BlockTags(init, xml)
      case Err(e) => Err(e)
      case Ok(prior) =>
        match TextQuery(xml, xml.parse(blocks[|blocks| - 1].s), KeywordPath)
        case Err(e) => Err(e)
        case Ok(keywords) => Ok(prior + Strs(keywords))
  }

  /**
   * The dictionary after `infer_special_tags`. `tags` is the very list stored
   * under `tags`, so every append lands there too: both keys end up holding
   * the same list. With thesaurus blocks present, the keywords of the blocks
   * without a thesaurus are appended as they come; otherwise the three
   * keyword fields are merged in without duplicates.
   */
  function SpecialTagsOf<N>(m: map<string, Value>, xml: Xml<N>): (r: Result<map<string, Value>>)
    requires Ready(m) && "tags" in m && Texts(m["tags"])
    ensures r.Ok? ==> Ready(r.value) && "tags" in r.value && "special_tags" in r.value
    ensures r.Ok? ==> r.value["tags"] == r.value["special_tags"] && Texts(r.value["tags"])
    ensures r.Ok? ==> m["tags"].items <= r.value["tags"].items
    ensures r.Ok? ==> forall k | k in m && k != "tags" && k != "special_tags" :: k in r.value && r.value[k] == m[k]
    ensures r.Ok? ==> r.value.Keys <= m.Keys + {"special_tags"}
  {
    var tags := m["tags"].items;
    if |m["keyword-list-with-thesaurus"].items| > 0 then
      match BlockTags(m["keyword-list-without-thesaurus"].items, xml)
      case Err(e) => Err(e)
      case Ok(more) => Ok(m["tags" := List(tags + more)]["special_tags" := List(tags + more)])
    else
      var all := AppendNew(tags, KeywordCandidates(m));
      AppendNewSpec(tags, KeywordCandidates(m));
      assert AllText(all) by {
        forall i | 0 <= i < |all| ensures all[i].Str? {
          assert all[i] in all;
        }
      }
      Ok(m["tags" := List(all)]["special_tags" := List(all)])
  }

  // ---------------------------------------------------------------------
  // infer_pointOfContact
  // ---------------------------------------------------------------------

  /** `d[key]` if `d.has_key(key)`, else `''`. */
  function Entry(fields: map<string, Value>, key: string): Value
  {
    if key in fields then fields[key] else Str("")
  }

  /** The party's `contact-info` is a dictionary. */
  predicate HasContactInfo(p: Value)
    requires IsParty(p)
  {
    "contact-info" in p.fields && p.fields["contact-info"].Obj?
  }

  function Role(p: Value): string
    requires IsParty(p)
  {
    p.fields["role"].s
  }

  /**
   * The postal address: deliveryPoint and postalCode, then whichever of
   * city, adminitrativeArea and country are non-empty, joined by `', '`;
   * `''` unless deliveryPoint and postalCode are both non-empty.
   */
  function Address(deliveryPoint: string, postalCode: string, city: string, area: string, country: string): (r: string)
    ensures r != "" <==> deliveryPoint != "" && postalCode != ""
  {
    if deliveryPoint != "" && postalCode != "" then
      var a1 := deliveryPoint + ", " + postalCode;
      var a2 := if city != "" then a1 + ", " + city else a1;
      var a3 := if area != "" then a2 + ", " + area else a2;
      if country != "" then a3 + ", " + country else a3
    else ""
  }

  /** A non-empty address is the join of the non-empty parts in their fixed order. */
  lemma AddressJoin(deliveryPoint: string, postalCode: string, city: string, area: string, country: string)
    requires deliveryPoint != "" && postalCode != ""
    ensures Address(deliveryPoint, postalCode, city, area, country)
      == Join(", ", NonEmpty([deliveryPoint, postalCode, city, area, country]))
  {
    var parts := [deliveryPoint, postalCode, city, area, country];
    var n2 := NonEmpty(parts[..2]);
    assert parts[..2][..1] == [deliveryPoint] && [deliveryPoint][..0] == [];
    assert NonEmpty([deliveryPoint]) == [deliveryPoint];
    assert n2 == NonEmpty([deliveryPoint]) + [postalCode];
    JoinAppend(", ", [deliveryPoint], postalCode);
    var a1 := deliveryPoint + ", " + postalCode;
    assert Join(", ", n2) == a1;
    var n3 := NonEmpty(parts[..3]);
    assert parts[..3][..2] == parts[..2];
    assert n3 == n2 + (if city == "" then [] else [city]);
    if city != "" {
      JoinAppend(", ", n2, city);
    } else {
      assert n3 == n2;
    }
    var a2 := if city != "" then a1 + ", " + city else a1;
    assert Join(", ", n3) == a2;
    var n4 := NonEmpty(parts[..4]);
    assert parts[..4][..3] == parts[..3];
    assert n4 == n3 + (if area == "" then [] else [area]);
    if area != "" {
      JoinAppend(", ", n3, area);
    } else {
      assert n4 == n3;
    }
    var a3 := if area != "" then a2 + ", " + area else a2;
    assert Join(", ", n4) == a3;
    assert parts[..4] == parts[..|parts| - 1];
    assert NonEmpty(parts) == n4 + (if country == "" then [] else [country]);
    if country != "" {
      JoinAppend(", ", n4, country);
    } else {
      assert NonEmpty(parts) == n4;
    }
  }

  /** The address of a `contact-info` dictionary; absent entries are `''`. */
  function ContactAddress(c: map<string, Value>): string
    requires TextFields(c)
  {
    Address(Entry(c, "deliveryPoint").s, Entry(c, "postalCode").s, Entry(c, "city").s,
      Entry(c, "adminitrativeArea").s, Entry(c, "country").s)
  }

  /** The six key suffixes, in the order of the writes. */
  const ContactSuffixes: seq<string> :=
    ["-address", "-email", "-individual-name", "-organisation-name", "-position-name", "-url"]

  /** The value written under `<role><suffix>`; absent entries are `''`. */
  function ContactEntry(p: Value, suffix: string): (r: Value)
    requires IsParty(p) && HasContactInfo(p)
    ensures r.Str?
  {
    var c := p.fields["contact-info"].fields;
    if suffix == "-address" then Str(ContactAddress(c))
    else if suffix == "-email" then Entry(c, "email")
    else if suffix == "-individual-name" then Entry(p.fields, "individual-name")
    else if suffix == "-organisation-name" then Entry(p.fields, "organisation-name")
    else if suffix == "-position-name" then Entry(p.fields, "position-name")
    else Entry(c, "url")
  }

  /** The six writes for one party. */
  function WriteContact(m: map<string, Value>, p: Value): map<string, Value>
    requires IsParty(p) && HasContactInfo(p)
  {
    var role := Role(p);
    m[role + "-address" := ContactEntry(p, "-address")]
     [role + "-email" := ContactEntry(p, "-email")]
     [role + "-individual-name" := ContactEntry(p, "-individual-name")]
     [role + "-organisation-name" := ContactEntry(p, "-organisation-name")]
     [role + "-position-name" := ContactEntry(p, "-position-name")]
     [role + "-url" := ContactEntry(p, "-url")]
  }

  /** The dictionary after `infer_pointOfContact` over `parties`, in order. */
  function PointOfContactOf(m: map<string, Value>, parties: seq<Value>): map<string, Value>
    requires AllParties(parties)
  {
    if |parties| == 0 then m
    else
      var prior := PointOfContactOf(m, parties[..|parties| - 1]);
      var p := parties[|parties| - 1];
      if HasContactInfo(p) then WriteContact(prior, p) else prior
  }

  /** The six keys a party with role `role` writes. */
  function ContactKeys(role: string): set<string>
  {
    {role + "-address", role + "-email", role + "-individual-name",
     role + "-organisation-name", role + "-position-name", role + "-url"}
  }

  /** The party writes `<role>-*` keys for this role. */
  predicate WritesRole(p: Value, role: string)
    requires IsParty(p)
  {
    HasContactInfo(p) && Role(p) == role
  }

  /** Party `i` is the last one that writes the keys of `role`. */
  predicate LastForRoleAt(parties: seq<Value>, role: string, i: int)
    requires AllParties(parties)
  {
    0 <= i < |parties| && WritesRole(parties[i], role)
    && forall j | i < j < |parties| :: !WritesRole(parties[j], role)
  }

  /** A key `<role><suffix>` determines both the role and the suffix: no suffix ends another. */
  lemma ContactKeyParts(role1: string, suffix1: string, role2: string, suffix2: string)
    requires suffix1 in ContactSuffixes && suffix2 in ContactSuffixes
    requires role1 + suffix1 == role2 + suffix2
    ensures role1 == role2 && suffix1 == suffix2
  {
    var k := role1 + suffix1;
    assert k[|role1|..] == suffix1;
    assert k[|role2|..] == suffix2;
    if |suffix1| <= |suffix2| {
      assert suffix2[|suffix2| - |suffix1|..] == k[|k| - |suffix1|..];
      SuffixesApart(suffix1, suffix2);
    } else {
      assert suffix1[|suffix1| - |suffix2|..] == k[|k| - |suffix2|..];
      SuffixesApart(suffix2, suffix1);
    }
    assert k[..|role1|] == role1 && k[..|role2|] == role2;
  }

  /** No suffix ends another one. */
  lemma SuffixesApart(short: string, long: string)
    requires short in ContactSuffixes && long in ContactSuffixes
    requires |short| <= |long| && long[|long| - |short|..] == short
    ensures short == long
  {
  }

  /** A key of `role` is not a key of any other role. */
  lemma OtherRoleKeys(role: string, suffix: string, other: string)
    requires suffix in ContactSuffixes && other != role
    ensures role + suffix !in ContactKeys(other)
  {
    var ss := ContactSuffixes;
    forall i | 0 <= i < |ss| ensures role + suffix != other + ss[i] {
      if role + suffix == other + ss[i] {
        ContactKeyParts(role, suffix, other, ss[i]);
      }
    }
    assert ss[0] == "-address" && ss[1] == "-email" && ss[2] == "-individual-name";
    assert ss[3] == "-organisation-name" && ss[4] == "-position-name" && ss[5] == "-url";
  }

  /** A key ending in none of the suffixes is never written by the contact step. */
  lemma NotAContactKey(k: string, role: string)
    requires forall i | 0 <= i < |ContactSuffixes| :: !EndsWith(k, ContactSuffixes[i])
    ensures k !in ContactKeys(role)
  {
    forall i | 0 <= i < |ContactSuffixes| ensures k != role + ContactSuffixes[i] {
      var s := ContactSuffixes[i];
      assert (role + s)[|role + s| - |s|..] == s;
    }
    assert k != role + ContactSuffixes[0] && k != role + ContactSuffixes[1] && k != role + ContactSuffixes[2];
    assert k != role + ContactSuffixes[3] && k != role + ContactSuffixes[4] && k != role + ContactSuffixes[5];
  }

  /** The six keys have six different lengths, so each write lands on its own key. */
  lemma WriteContactSets(m: map<string, Value>, p: Value, suffix: string)
    requires IsParty(p) && HasContactInfo(p) && suffix in ContactSuffixes
    ensures Role(p) + suffix in WriteContact(m, p)
    ensures WriteContact(m, p)[Role(p) + suffix] == ContactEntry(p, suffix)
  {
    var role := Role(p);
    assert |role + "-address"| == |role| + 8 && |role + "-email"| == |role| + 6;
    assert |role + "-individual-name"| == |role| + 16 && |role + "-organisation-name"| == |role| + 18;
    assert |role + "-position-name"| == |role| + 14 && |role + "-url"| == |role| + 4;
    var w := WriteContact(m, p);
    if suffix == "-address" {
      assert w[role + "-address"] == ContactEntry(p, "-address");
    } else if suffix == "-email" {
      assert w[role + "-email"] == ContactEntry(p, "-email");
    } else if suffix == "-individual-name" {
      assert w[role + "-individual-name"] == ContactEntry(p, "-individual-name");
    } else if suffix == "-organisation-name" {
      assert w[role + "-organisation-name"] == ContactEntry(p, "-organisation-name");
    } else if suffix == "-position-name" {
      assert w[role + "-position-name"] == ContactEntry(p, "-position-name");
    } else {
      assert suffix == "-url";
    }
  }

  /** Writing one party's keys leaves every other key as it was. */
  lemma WriteContactKeeps(m: map<string, Value>, p: Value, k: string)
    requires IsParty(p) && HasContactInfo(p) && k !in ContactKeys(Role(p))
    ensures (k in WriteContact(m, p) <==> k in m) && (k in m ==> WriteContact(m, p)[k] == m[k])
  {
  }

  /** The keys of `role` hold what the last party with that role wrote. */
  lemma {:induction false} LastContactWins(m: map<string, Value>, parties: seq<Value>, role: string, suffix: string, i: int)
    requires AllParties(parties) && suffix in ContactSuffixes && LastForRoleAt(parties, role, i)
    ensures role + suffix in PointOfContactOf(m, parties)
    ensures PointOfContactOf(m, parties)[role + suffix] == ContactEntry(parties[i], suffix)
    decreases |parties|
  {
    var init := parties[..|parties| - 1];
    var p := parties[|parties| - 1];
    var prior := PointOfContactOf(m, init);
    if i == |parties| - 1 {
      WriteContactSets(prior, p, suffix);
    } else {
      assert LastForRoleAt(init, role, i);
      LastContactWins(m, init, role, suffix, i);
      if HasContactInfo(p) {
        assert !WritesRole(parties[|parties| - 1], role);
        OtherRoleKeys(role, suffix, Role(p));
        WriteContactKeeps(prior, p, role + suffix);
      }
    }
  }

  /** A key no party writes keeps its entry, or its absence. */
  lemma {:induction false} PointOfContactKeeps(m: map<string, Value>, parties: seq<Value>, k: string)
    requires AllParties(parties)
    requires forall i | 0 <= i < |parties| :: !(HasContactInfo(parties[i]) && k in ContactKeys(Role(parties[i])))
    ensures k in PointOfContactOf(m, parties) <==> k in m
    ensures k in m ==> PointOfContactOf(m, parties)[k] == m[k]
    decreases |parties|
  {
    if |parties| > 0 {
      var init := parties[..|parties| - 1];
      var p := parties[|parties| - 1];
      assert forall i | 0 <= i < |init| :: init[i] == parties[i];
      PointOfContactKeeps(m, init, k);
      if HasContactInfo(p) {
        WriteContactKeeps(PointOfContactOf(m, init), p, k);
      }
    }
  }

  /** The keys of a role that no party with contact information has are left as they were. */
  lemma RoleWithoutPartyKept(m: map<string, Value>, parties: seq<Value>, role: string, suffix: string)
    requires AllParties(parties) && suffix in ContactSuffixes
    requires forall i | 0 <= i < |parties| :: !WritesRole(parties[i], role)
    ensures role + suffix in PointOfContactOf(m, parties) <==> role + suffix in m
    ensures role + suffix in m ==> PointOfContactOf(m, parties)[role + suffix] == m[role + suffix]
  {
    forall i | 0 <= i < |parties| && HasContactInfo(parties[i])
      ensures role + suffix !in ContactKeys(Role(parties[i]))
    {
      assert !WritesRole(parties[i], role);
      OtherRoleKeys(role, suffix, Role(parties[i]));
    }
    PointOfContactKeeps(m, parties, role + suffix);
  }

  // ---------------------------------------------------------------------
  // infer_values
  // ---------------------------------------------------------------------

  /** After `infer_date_released`, `infer_date_updated` and `infer_date_created`. */
  function DatesStage(m: map<string, Value>): (r: map<string, Value>)
    requires Ready(m)
    ensures Ready(r)
    ensures forall k | k in m && k != "date-released" && k != "date-updated" && k != "date-created" ::
      k in r && r[k] == m[k]
    ensures r.Keys <= m.Keys + {"date-released", "date-updated", "date-created"}
  {
    var m1 := m["date-released" := List(DatesOfType(m, "publication"))];
    var m2 := m1["date-updated" := List(DatesOfType(m1, "revision"))];
    m2["date-created" := List(DatesOfType(m2, "creation"))]
  }

  /** After `infer_special_url` and `infer_url`. */
  function LocatorStage(m: map<string, Value>): (r: Result<map<string, Value>>)
    requires Ready(m)
    ensures r.Ok? ==> Ready(r.value)
    ensures r.Ok? ==> forall k | k in m && k != "further_info" && k != "used_datasets" && k != "resource-locator" && k != "url" ::
      k in r.value && r.value[k] == m[k]
    ensures r.Ok? ==> r.value.Keys <= m.Keys + {"further_info", "used_datasets", "url"}
  {
    match SpecialUrlOf(m)
    case Err(e) => Err(e)
    case Ok(m4) =>
      SpecialUrlKeys(m);
      Ok(m4["url" := InformationUrl(m4["resource-locator"].items)])
  }

  /** `infer_special_url` adds no key but `further_info` and `used_datasets`. */
  lemma SpecialUrlKeys(m: map<string, Value>)
    requires Ready(m) && SpecialUrlOf(m).Ok?
    ensures SpecialUrlOf(m).value.Keys <= m.Keys + {"further_info", "used_datasets"}
  {
    var withInfo := WithFurtherInfo(m, FurtherInfoUrl(m["resource-locator"].items));
    assert withInfo.Keys <= m.Keys + {"further_info"};
  }

  /** After `infer_tags`, `infer_publisher` and `infer_contact`. */
  function PartyStage(m: map<string, Value>): (r: map<string, Value>)
    requires Ready(m)
    ensures Ready(r)
    ensures forall k | k in m && k != "tags" && k != "publisher" && k != "contact" :: k in r && r[k] == m[k]
    ensures r.Keys <= m.Keys + {"tags", "publisher", "contact"}
  {
    var m6 := m["tags" := List(TagUnion(m))];
    var m7 := m6["publisher" := PublisherOf(m6["responsible-organisation"].items)];
    m7["contact" := ContactOf(m7["responsible-organisation"].items)]
  }

  /** After `infer_groups` and `infer_special_tags`. */
  function KeywordStage<N>(m: map<string, Value>, xml: Xml<N>): (r: Result<map<string, Value>>)
    requires Ready(m)
    ensures r.Ok? ==> Ready(r.value) && "tags" in r.value && "special_tags" in r.value
    ensures r.Ok? ==> forall k | k in m && k != "groups" && k != "tags" && k != "special_tags" ::
      k in r.value && r.value[k] == m[k]
    ensures r.Ok? ==> r.value.Keys <= m.Keys + {"groups", "tags", "special_tags"}
  {
    match GroupsOf(m, xml)
    case Err(e) => Err(e)
    case Ok(m9) => SpecialTagsOf(m9, xml)
  }

  /** `infer_values`: the eleven steps in their order; the first step that raises ends it. */
  function InferValuesOf<N>(m: map<string, Value>, xml: Xml<N>): Result<map<string, Value>>
    requires Ready(m)
  {
    match LocatorStage(DatesStage(m))
    case Err(e) => Err(e)
    case Ok(m5) =>
      match KeywordStage(PartyStage(m5), xml)
      case Err(e) => Err(e)
      case Ok(m10) =>
        assert Ready(m10);
        Ok(PointOfContactOf(m10, m10["responsible-organisation"].items))
  }

  /** A key that ends in none of the six suffixes survives the contact step unchanged. */
  lemma UnwrittenKey(m: map<string, Value>, parties: seq<Value>, k: string)
    requires AllParties(parties)
    requires forall i | 0 <= i < |ContactSuffixes| :: !EndsWith(k, ContactSuffixes[i])
    ensures k in PointOfContactOf(m, parties) <==> k in m
    ensures k in m ==> PointOfContactOf(m, parties)[k] == m[k]
  {
    forall i | 0 <= i < |parties| && HasContactInfo(parties[i])
      ensures k !in ContactKeys(Role(parties[i]))
    {
      NotAContactKey(k, Role(parties[i]));
    }
    PointOfContactKeeps(m, parties, k);
  }

  /** The entries the date steps only read. */
  lemma DatesStageKeeps(m: map<string, Value>)
    requires Ready(m)
    ensures DatesStage(m)["service-date"] == m["service-date"]
    ensures DatesStage(m)["dataset-date"] == m["dataset-date"]
    ensures DatesStage(m)["keyword-inspire-theme"] == m["keyword-inspire-theme"]
    ensures DatesStage(m)["keyword-controlled-other"] == m["keyword-controlled-other"]
    ensures DatesStage(m)["keyword-free-text"] == m["keyword-free-text"]
    ensures DatesStage(m)["responsible-organisation"] == m["responsible-organisation"]
    ensures DatesStage(m)["keyword-list-with-thesaurus"] == m["keyword-list-with-thesaurus"]
    ensures DatesStage(m)["keyword-list-without-thesaurus"] == m["keyword-list-without-thesaurus"]
    ensures DatesStage(m)["resource-locator"] == m["resource-locator"]
  {
  }

  lemma LocatorStageKeeps(m: map<string, Value>)
    requires Ready(m) && LocatorStage(m).Ok?
    ensures LocatorStage(m).value["service-date"] == m["service-date"]
    ensures LocatorStage(m).value["dataset-date"] == m["dataset-date"]
    ensures LocatorStage(m).value["keyword-inspire-theme"] == m["keyword-inspire-theme"]
    ensures LocatorStage(m).value["keyword-controlled-other"] == m["keyword-controlled-other"]
    ensures LocatorStage(m).value["keyword-free-text"] == m["keyword-free-text"]
    ensures LocatorStage(m).value["responsible-organisation"] == m["responsible-organisation"]
    ensures LocatorStage(m).value["keyword-list-with-thesaurus"] == m["keyword-list-with-thesaurus"]
    ensures LocatorStage(m).value["keyword-list-without-thesaurus"] == m["keyword-list-without-thesaurus"]
  {
  }

  lemma PartyStageKeeps(m: map<string, Value>)
    requires Ready(m)
    ensures PartyStage(m)["service-date"] == m["service-date"]
    ensures PartyStage(m)["dataset-date"] == m["dataset-date"]
    ensures PartyStage(m)["keyword-inspire-theme"] == m["keyword-inspire-theme"]
    ensures PartyStage(m)["keyword-controlled-other"] == m["keyword-controlled-other"]
    ensures PartyStage(m)["keyword-free-text"] == m["keyword-free-text"]
    ensures PartyStage(m)["responsible-organisation"] == m["responsible-organisation"]
    ensures PartyStage(m)["keyword-list-with-thesaurus"] == m["keyword-list-with-thesaurus"]
    ensures PartyStage(m)["keyword-list-without-thesaurus"] == m["keyword-list-without-thesaurus"]
  {
  }

  /** The entries the steps only read, other than the locators, reach the keyword steps unchanged. */
  lemma InputsKept(m: map<string, Value>)
    requires Ready(m) && LocatorStage(DatesStage(m)).Ok?
    ensures PartyStage(LocatorStage(DatesStage(m)).value)["service-date"] == m["service-date"]
    ensures PartyStage(LocatorStage(DatesStage(m)).value)["dataset-date"] == m["dataset-date"]
    ensures PartyStage(LocatorStage(DatesStage(m)).value)["keyword-inspire-theme"] == m["keyword-inspire-theme"]
    ensures PartyStage(LocatorStage(DatesStage(m)).value)["keyword-controlled-other"] == m["keyword-controlled-other"]
    ensures PartyStage(LocatorStage(DatesStage(m)).value)["keyword-free-text"] == m["keyword-free-text"]
    ensures PartyStage(LocatorStage(DatesStage(m)).value)["responsible-organisation"] == m["responsible-organisation"]
    ensures PartyStage(LocatorStage(DatesStage(m)).value)["keyword-list-with-thesaurus"] == m["keyword-list-with-thesaurus"]
    ensures PartyStage(LocatorStage(DatesStage(m)).value)["keyword-list-without-thesaurus"] == m["keyword-list-without-thesaurus"]
  {
    DatesStageKeeps(m);
    LocatorStageKeeps(DatesStage(m));
    PartyStageKeeps(LocatorStage(DatesStage(m)).value);
  }

  /** The dictionary the contact step starts from. */
  function BeforeContacts<N>(m: map<string, Value>, xml: Xml<N>): map<string, Value>
    requires Ready(m) && InferValuesOf(m, xml).Ok?
  {
    KeywordStage(PartyStage(LocatorStage(DatesStage(m)).value), xml).value
  }

  /** A key ending in none of the six suffixes. */
  predicate NoContactSuffix(k: string)
  {
    forall i | 0 <= i < |ContactSuffixes| :: !EndsWith(k, ContactSuffixes[i])
  }

  /** The first and the last character of a suffix a string ends with. */
  lemma EndsWithChars(k: string, suffix: string)
    requires EndsWith(k, suffix) && |suffix| > 0
    ensures k[|k| - 1] == suffix[|suffix| - 1] && k[|k| - |suffix|] == suffix[0]
  {
    assert k[|k| - |suffix|..][|suffix| - 1] == suffix[|suffix| - 1];
    assert k[|k| - |suffix|..][0] == suffix[0];
  }

  /** A key that is shorter than a suffix or differs from it in the last character does not end with it. */
  lemma NoContactSuffixByEnd(k: string)
    requires forall i | 0 <= i < |ContactSuffixes| ::
      |k| < |ContactSuffixes[i]| || k[|k| - 1] != ContactSuffixes[i][|ContactSuffixes[i]| - 1]
        || k[|k| - |ContactSuffixes[i]|] != '-'
    ensures NoContactSuffix(k)
  {
    forall i | 0 <= i < |ContactSuffixes| ensures !EndsWith(k, ContactSuffixes[i]) {
      var sfx := ContactSuffixes[i];
      assert sfx[0] == '-';
      if EndsWith(k, sfx) {
        EndsWithChars(k, sfx);
      }
    }
  }

  /** None of the keys the other steps write ends in a contact suffix. */
  lemma DateKeysApart()
    ensures NoContactSuffix("date-released") && NoContactSuffix("date-updated") && NoContactSuffix("date-created")
  {
    NoContactSuffixByEnd("date-released");
    NoContactSuffixByEnd("date-updated");
    NoContactSuffixByEnd("date-created");
  }

  lemma LocatorKeysApart()
    ensures NoContactSuffix("resource-locator") && NoContactSuffix("url") && NoContactSuffix("used_datasets") && NoContactSuffix("further_info")
  {
    NoContactSuffixByEnd("resource-locator");
    NoContactSuffixWithoutDash("url");
    NoContactSuffixWithoutDash("used_datasets");
    NoContactSuffixWithoutDash("further_info");
  }

  lemma KeywordKeysApart()
    ensures NoContactSuffix("tags") && NoContactSuffix("special_tags") && NoContactSuffix("groups") && NoContactSuffix("publisher") && NoContactSuffix("contact")
  {
    NoContactSuffixWithoutDash("tags");
    NoContactSuffixWithoutDash("special_tags");
    NoContactSuffixWithoutDash("groups");
    NoContactSuffixWithoutDash("publisher");
    NoContactSuffixWithoutDash("contact");
  }

  /** Every suffix starts with `-`, so a key without one ends in none of them. */
  lemma NoContactSuffixWithoutDash(k: string)
    requires '-' !in k
    ensures NoContactSuffix(k)
  {
    forall i | 0 <= i < |ContactSuffixes| ensures !EndsWith(k, ContactSuffixes[i]) {
      var sfx := ContactSuffixes[i];
      assert sfx[0] == '-';
      if EndsWith(k, sfx) {
        EndsWithChars(k, sfx);
      }
    }
  }

  /** An entry of the located dictionary that no later step writes reaches the result unchanged. */
  lemma Survives<N>(m: map<string, Value>, xml: Xml<N>, k: string)
    requires Ready(m) && InferValuesOf(m, xml).Ok?
    requires k in LocatorStage(DatesStage(m)).value
    requires k != "tags" && k != "publisher" && k != "contact" && k != "groups" && k != "special_tags"
    requires NoContactSuffix(k)
    ensures k in InferValuesOf(m, xml).value
    ensures InferValuesOf(m, xml).value[k] == LocatorStage(DatesStage(m)).value[k]
  {
    var m10 := BeforeContacts(m, xml);
    UnwrittenKey(m10, m10["responsible-organisation"].items, k);
  }

  /** The date steps store the dates of each type. */
  lemma DatesStageValues(m: map<string, Value>)
    requires Ready(m)
    ensures DatesStage(m)["date-released"] == List(DatesOfType(m, "publication"))
    ensures DatesStage(m)["date-updated"] == List(DatesOfType(m, "revision"))
    ensures DatesStage(m)["date-created"] == List(DatesOfType(m, "creation"))
  {
    DatesStageShape(m);
    ThreeKeys(m, List(DatesOfType(m, "publication")), List(DatesOfType(m, "revision")), List(DatesOfType(m, "creation")));
  }

  /** The date steps as three writes of the dates computed from the harvested dictionary. */
  lemma DatesStageShape(m: map<string, Value>)
    requires Ready(m)
    ensures DatesStage(m) == m["date-released" := List(DatesOfType(m, "publication"))]
      ["date-updated" := List(DatesOfType(m, "revision"))]["date-created" := List(DatesOfType(m, "creation"))]
  {
    var m1 := m["date-released" := List(DatesOfType(m, "publication"))];
    DatesStep(m, "date-released", List(DatesOfType(m, "publication")));
    var m2 := m1["date-updated" := List(DatesOfType(m1, "revision"))];
    DatesStep(m1, "date-updated", List(DatesOfType(m1, "revision")));
    DatesStageUnfold(m, m1, m2);
    assert DatesOfType(m1, "revision") == DatesOfType(m, "revision");
    assert DatesOfType(m2, "creation") == DatesOfType(m, "creation");
  }

  /** The dictionary after the three date steps, written out. */
  lemma DatesStageUnfold(m: map<string, Value>, m1: map<string, Value>, m2: map<string, Value>)
    requires Ready(m) && Ready(m1) && Ready(m2)
    requires m1 == m["date-released" := List(DatesOfType(m, "publication"))]
    requires m2 == m1["date-updated" := List(DatesOfType(m1, "revision"))]
    ensures DatesStage(m) == m2["date-created" := List(DatesOfType(m2, "creation"))]
  {
  }

  /** Three writes to the three date keys. */
  lemma ThreeKeys(m: map<string, Value>, pub: Value, rev: Value, cre: Value)
    ensures var r := m["date-released" := pub]["date-updated" := rev]["date-created" := cre];
      r["date-released"] == pub && r["date-updated"] == rev && r["date-created"] == cre
  {
    DateKeysDistinct();
  }

  /** Writing one date key keeps the dictionary ready and the dates of every type as they were. */
  lemma DatesStep(m: map<string, Value>, k: string, v: Value)
    requires Ready(m) && |k| >= 5 && k[0] == 'd' && k[4] == '-'
    ensures Ready(m[k := v])
    ensures forall t :: DatesOfType(m[k := v], t) == DatesOfType(m, t)
  {
    ReadyUpdate(m, k, v);
    assert "service-date"[0] != k[0] && "dataset-date"[4] != k[4];
    forall t ensures DatesOfType(m[k := v], t) == DatesOfType(m, t) {
      DatesOfTypeFrame(m, m[k := v], t);
    }
  }

  /** The three date keys differ from one another. */
  lemma DateKeysDistinct()
    ensures "date-released" != "date-updated" && "date-released" != "date-created" && "date-updated" != "date-created"
  {
    assert "date-released"[5] != "date-updated"[5] && "date-released"[5] != "date-created"[5];
    assert "date-updated"[5] != "date-created"[5];
  }

  /** Writing a key like `date-...` (first letter `d`, fifth `-`), which none of the harvested lists uses, keeps the dictionary ready. */
  lemma ReadyUpdate(m: map<string, Value>, k: string, v: Value)
    requires Ready(m) && |k| >= 5 && k[0] == 'd' && k[4] == '-'
    ensures Ready(m[k := v])
  {
    assert "dataset-date"[4] != k[4];
  }

  /** The dates of a type depend only on the two date lists. */
  lemma DatesOfTypeFrame(m: map<string, Value>, m': map<string, Value>, dateType: string)
    requires Ready(m) && Ready(m')
    requires m'["service-date"] == m["service-date"] && m'["dataset-date"] == m["dataset-date"]
    ensures DatesOfType(m', dateType) == DatesOfType(m, dateType)
  {
    assert DateCandidates(m', dateType) == DateCandidates(m, dateType);
  }

  lemma LocatorStageDates(m: map<string, Value>)
    requires Ready(m) && LocatorStage(m).Ok?
    requires "date-released" in m && "date-updated" in m && "date-created" in m
    ensures "date-released" in LocatorStage(m).value && LocatorStage(m).value["date-released"] == m["date-released"]
    ensures "date-updated" in LocatorStage(m).value && LocatorStage(m).value["date-updated"] == m["date-updated"]
    ensures "date-created" in LocatorStage(m).value && LocatorStage(m).value["date-created"] == m["date-created"]
  {
  }

  /** The keyword steps raise exactly when one of the blocks they query cannot be queried. */
  lemma KeywordStageFails<N>(m: map<string, Value>, xml: Xml<N>)
    requires Ready(m)
    ensures var thesauri := m["keyword-list-with-thesaurus"].items;
      var plain := m["keyword-list-without-thesaurus"].items;
      KeywordStage(m, xml).Err? <==>
        || (exists i | 0 <= i < |thesauri| :: !Queried(thesauri[i].s, xml))
        || (|thesauri| > 0 && exists i | 0 <= i < |plain| :: TextQuery(xml, xml.parse(plain[i].s), KeywordPath).Err?)
  {
    SortBlocksSucceeds(m["keyword-list-with-thesaurus"].items, xml);
  }

  /** The located dictionary exists exactly when no locator is extracted twice. */
  lemma LocatorStageFails(m: map<string, Value>)
    requires Ready(m)
    ensures var locs := m["resource-locator"].items;
      LocatorStage(DatesStage(m)).Err? <==> exists i | 0 <= i < |locs| :: FurtherInfoLocator(locs[i]) && BasisdatenLocator(locs[i])
  {
    DatesStageKeeps(m);
    SpecialUrlFails(DatesStage(m));
  }

  /**
   * `infer_values` raises exactly when a locator is extracted twice, when a
   * thesaurus block cannot be queried, or when, with thesaurus blocks
   * present, a block without a thesaurus cannot be queried for keywords.
   */
  lemma InferValuesFails<N>(m: map<string, Value>, xml: Xml<N>)
    requires Ready(m)
    ensures var locs := m["resource-locator"].items;
      var thesauri := m["keyword-list-with-thesaurus"].items;
      var plain := m["keyword-list-without-thesaurus"].items;
      InferValuesOf(m, xml).Err? <==>
        || (exists i | 0 <= i < |locs| :: FurtherInfoLocator(locs[i]) && BasisdatenLocator(locs[i]))
        || (exists i | 0 <= i < |thesauri| :: !Queried(thesauri[i].s, xml))
        || (|thesauri| > 0 && exists i | 0 <= i < |plain| :: TextQuery(xml, xml.parse(plain[i].s), KeywordPath).Err?)
  {
    LocatorStageFails(m);
    if LocatorStage(DatesStage(m)).Ok? {
      InputsKept(m);
      KeywordStageFails(PartyStage(LocatorStage(DatesStage(m)).value), xml);
    }
  }

  /** What `infer_special_url` and `infer_url` store when no locator is extracted twice. */
  lemma LocatorStageValues(m: map<string, Value>)
    requires Ready(m) && LocatorStage(DatesStage(m)).Ok?
    ensures var locs := m["resource-locator"].items;
      var kept := KeptBy(locs, FurtherInfoLocator, BasisdatenLocator);
      var r := LocatorStage(DatesStage(m)).value;
      && AllLocators(kept)
      && "resource-locator" in r && r["resource-locator"] == List(kept)
      && "url" in r && r["url"] == InformationUrl(kept)
      && "used_datasets" in r && r["used_datasets"] == List(UsedDatasets(locs))
      && (FurtherInfoUrl(locs).Some? ==> "further_info" in r && r["further_info"] == FurtherInfoUrl(locs).value)
  {
    DatesStageKeeps(m);
    NoDoubleExtraction(m);
    LocatorStageResult(DatesStage(m));
    KeptLocators(m["resource-locator"].items);
  }

  lemma NoDoubleExtraction(m: map<string, Value>)
    requires Ready(m) && LocatorStage(DatesStage(m)).Ok?
    ensures var locs := DatesStage(m)["resource-locator"].items;
      forall i | 0 <= i < |locs| :: !(FurtherInfoLocator(locs[i]) && BasisdatenLocator(locs[i]))
  {
    DatesStageKeeps(m);
    LocatorStageFails(m);
  }

  lemma LocatorStageResult(m: map<string, Value>)
    requires Ready(m) && LocatorStage(m).Ok?
    requires var locs := m["resource-locator"].items;
      forall i | 0 <= i < |locs| :: !(FurtherInfoLocator(locs[i]) && BasisdatenLocator(locs[i]))
    ensures var locs := m["resource-locator"].items;
      var kept := KeptBy(locs, FurtherInfoLocator, BasisdatenLocator);
      var r := LocatorStage(m).value;
      && AllLocators(kept)
      && "resource-locator" in r && r["resource-locator"] == List(kept)
      && "url" in r && r["url"] == InformationUrl(kept)
      && "used_datasets" in r && r["used_datasets"] == List(UsedDatasets(locs))
      && (FurtherInfoUrl(locs).Some? ==> "further_info" in r && r["further_info"] == FurtherInfoUrl(locs).value)
  {
    SpecialUrlResult(m);
    KeptLocators(m["resource-locator"].items);
  }

  /** The locators left are locators. */
  lemma KeptLocators(locs: seq<Value>)
    requires AllLocators(locs)
    ensures AllLocators(KeptBy(locs, FurtherInfoLocator, BasisdatenLocator))
  {
    var kept := KeptBy(locs, FurtherInfoLocator, BasisdatenLocator);
    forall i | 0 <= i < |kept| ensures IsLocator(kept[i]) {
      assert kept[i] in kept;
      var j :| 0 <= j < |locs| && locs[j] == kept[i];
    }
  }

  /** `date-released`, `date-updated` and `date-created` hold the dates of their type. */
  lemma InferredDates<N>(m: map<string, Value>, xml: Xml<N>)
    requires Ready(m) && InferValuesOf(m, xml).Ok?
    ensures var r := InferValuesOf(m, xml).value;
      && "date-released" in r && r["date-released"] == List(DatesOfType(m, "publication"))
      && "date-updated" in r && r["date-updated"] == List(DatesOfType(m, "revision"))
      && "date-created" in r && r["date-created"] == List(DatesOfType(m, "creation"))
  {
    DatesStageValues(m);
    LocatorStageDates(DatesStage(m));
    DateKeysApart();
    Survives(m, xml, "date-released");
    Survives(m, xml, "date-updated");
    Survives(m, xml, "date-created");
  }

  /**
   * The extracted locators are gone from `resource-locator`, the others keep
   * their order, and `url` is taken from what is left.
   */
  lemma InferredLocators<N>(m: map<string, Value>, xml: Xml<N>)
    requires Ready(m) && InferValuesOf(m, xml).Ok?
    ensures var kept := KeptBy(m["resource-locator"].items, FurtherInfoLocator, BasisdatenLocator);
      var r := InferValuesOf(m, xml).value;
      && AllLocators(kept)
      && "resource-locator" in r && r["resource-locator"] == List(kept)
      && "url" in r && r["url"] == InformationUrl(kept)
  {
    assert LocatorStage(DatesStage(m)).Ok?;
    LocatorStageValues(m);
    KeptLocators(m["resource-locator"].items);
    LocatorKeysApart();
    Survives(m, xml, "resource-locator");
    Survives(m, xml, "url");
  }

  /** `used_datasets` lists the Basisdaten names and `further_info` is the last further-information url. */
  lemma InferredSpecialUrl<N>(m: map<string, Value>, xml: Xml<N>)
    requires Ready(m) && InferValuesOf(m, xml).Ok?
    ensures var locs := m["resource-locator"].items;
      var r := InferValuesOf(m, xml).value;
      && "used_datasets" in r && r["used_datasets"] == List(UsedDatasets(locs))
      && (FurtherInfoUrl(locs).Some? ==> "further_info" in r && r["further_info"] == FurtherInfoUrl(locs).value)
  {
    assert LocatorStage(DatesStage(m)).Ok?;
    LocatorStageValues(m);
    LocatorKeysApart();
    Survives(m, xml, "used_datasets");
    if FurtherInfoUrl(m["resource-locator"].items).Some? {
      Survives(m, xml, "further_info");
    }
  }

  /** What `infer_groups` and `infer_special_tags` store. */
  lemma KeywordStageValues<N>(m: map<string, Value>, xml: Xml<N>)
    requires Ready(m) && KeywordStage(m, xml).Ok?
    ensures var thesauri := m["keyword-list-with-thesaurus"].items;
      var plain := m["keyword-list-without-thesaurus"].items;
      var r := KeywordStage(m, xml).value;
      && SortBlocks(thesauri, xml).Ok?
      && "groups" in r && r["groups"] == List(SortBlocks(thesauri, xml).value.groups)
      && r["tags"] == r["special_tags"]
      && (|thesauri| == 0 ==> r["tags"] == List(AppendNew([], KeywordCandidates(m))))
      && (|thesauri| > 0 ==>
            BlockTags(plain, xml).Ok?
            && r["tags"] == List(SortBlocks(thesauri, xml).value.tags + BlockTags(plain, xml).value))
  {
    var m9 := GroupsOf(m, xml).value;
    assert KeywordCandidates(m9) == KeywordCandidates(m);
  }

  /** The entries the keyword steps only read, for the contact step and the result. */
  lemma KeywordStageKeeps<N>(m: map<string, Value>, xml: Xml<N>)
    requires Ready(m) && KeywordStage(m, xml).Ok?
    ensures KeywordStage(m, xml).value["responsible-organisation"] == m["responsible-organisation"]
    ensures "publisher" in m ==>
              "publisher" in KeywordStage(m, xml).value && KeywordStage(m, xml).value["publisher"] == m["publisher"]
    ensures "contact" in m ==>
              "contact" in KeywordStage(m, xml).value && KeywordStage(m, xml).value["contact"] == m["contact"]
  {
  }

  /** What `infer_tags`, `infer_publisher` and `infer_contact` store. */
  lemma PartyStageValues(m: map<string, Value>)
    requires Ready(m)
    ensures "publisher" in PartyStage(m) && PartyStage(m)["publisher"] == PublisherOf(m["responsible-organisation"].items)
    ensures "contact" in PartyStage(m) && PartyStage(m)["contact"] == ContactOf(m["responsible-organisation"].items)
  {
  }

  /** The contact step starts from the keyword steps' dictionary, with the parties as read. */
  lemma BeforeContactsParties<N>(m: map<string, Value>, xml: Xml<N>)
    requires Ready(m) && InferValuesOf(m, xml).Ok?
    ensures BeforeContacts(m, xml)["responsible-organisation"] == m["responsible-organisation"]
  {
    var m8 := PartyStage(LocatorStage(DatesStage(m)).value);
    InputsKept(m);
    KeywordStageKeeps(m8, xml);
  }

  /** An entry of the keyword steps' dictionary that ends in no contact suffix reaches the result. */
  lemma SurvivesContacts<N>(m: map<string, Value>, xml: Xml<N>, k: string)
    requires Ready(m) && InferValuesOf(m, xml).Ok?
    requires k in BeforeContacts(m, xml) && NoContactSuffix(k)
    ensures k in InferValuesOf(m, xml).value
    ensures InferValuesOf(m, xml).value[k] == BeforeContacts(m, xml)[k]
  {
    var m10 := BeforeContacts(m, xml);
    UnwrittenKey(m10, m10["responsible-organisation"].items, k);
  }

  /** The twelve keys `infer_values` writes besides the role-prefixed contact keys. */
  predicate InferredName(k: string)
  {
    || k == "date-released" || k == "date-updated" || k == "date-created"
    || k == "further_info" || k == "used_datasets" || k == "resource-locator" || k == "url"
    || k == "tags" || k == "publisher" || k == "contact" || k == "groups" || k == "special_tags"
  }

  /** The date steps neither add nor change any other key. */
  lemma DatesStageFrame(m: map<string, Value>, k: string)
    requires Ready(m) && k != "date-released" && k != "date-updated" && k != "date-created"
    ensures k in DatesStage(m) <==> k in m
    ensures k in m ==> DatesStage(m)[k] == m[k]
  {
  }

  /** The locator steps neither add nor change any other key. */
  lemma LocatorStageFrame(m: map<string, Value>, k: string)
    requires Ready(m) && LocatorStage(m).Ok?
    requires k != "further_info" && k != "used_datasets" && k != "resource-locator" && k != "url"
    ensures k in LocatorStage(m).value <==> k in m
    ensures k in m ==> LocatorStage(m).value[k] == m[k]
  {
  }

  /** The tag, publisher and contact steps neither add nor change any other key. */
  lemma PartyStageFrame(m: map<string, Value>, k: string)
    requires Ready(m) && k != "tags" && k != "publisher" && k != "contact"
    ensures k in PartyStage(m) <==> k in m
    ensures k in m ==> PartyStage(m)[k] == m[k]
  {
  }

  /** The keyword steps neither add nor change any other key. */
  lemma KeywordStageFrame<N>(m: map<string, Value>, xml: Xml<N>, k: string)
    requires Ready(m) && KeywordStage(m, xml).Ok?
    requires k != "groups" && k != "tags" && k != "special_tags"
    ensures k in KeywordStage(m, xml).value <==> k in m
    ensures k in m ==> KeywordStage(m, xml).value[k] == m[k]
  {
  }

  /**
   * Any other key without a contact suffix is neither added nor changed by
   * `infer_values`: it is present afterwards exactly when `read_values` put
   * it there, with the value read.
   */
  lemma InferredFrame<N>(m: map<string, Value>, xml: Xml<N>, k: string)
    requires Ready(m) && InferValuesOf(m, xml).Ok?
    requires NoContactSuffix(k) && !InferredName(k)
    ensures k in InferValuesOf(m, xml).value <==> k in m
    ensures k in m ==> InferValuesOf(m, xml).value[k] == m[k]
  {
    var m3 := DatesStage(m);
    DatesStageFrame(m, k);
    var m5 := LocatorStage(m3).value;
    LocatorStageFrame(m3, k);
    var m8 := PartyStage(m5);
    PartyStageFrame(m5, k);
    var m10 := KeywordStage(m8, xml).value;
    KeywordStageFrame(m8, xml, k);
    UnwrittenKey(m10, m10["responsible-organisation"].items, k);
  }

  /**
   * `tags` and `special_tags` end up the same list. Without thesaurus
   * blocks it is the duplicate-free union of the three keyword fields;
   * with them, `infer_groups` has replaced that union by the keywords of
   * the blocks of other thesauri, and the keywords of the blocks without a
   * thesaurus follow, duplicates kept.
   */
  lemma InferredTags<N>(m: map<string, Value>, xml: Xml<N>)
    requires Ready(m) && InferValuesOf(m, xml).Ok?
    ensures var thesauri := m["keyword-list-with-thesaurus"].items;
      var plain := m["keyword-list-without-thesaurus"].items;
      var r := InferValuesOf(m, xml).value;
      && "tags" in r && "special_tags" in r && r["tags"] == r["special_tags"]
      && (|thesauri| == 0 ==> r["tags"] == List(TagUnion(m)))
      && (|thesauri| > 0 ==>
            SortBlocks(thesauri, xml).Ok? && BlockTags(plain, xml).Ok?
            && r["tags"] == List(SortBlocks(thesauri, xml).value.tags + BlockTags(plain, xml).value))
  {
    var m8 := PartyStage(LocatorStage(DatesStage(m)).value);
    InputsKept(m);
    KeywordStageValues(m8, xml);
    assert KeywordCandidates(m8) == KeywordCandidates(m);
    KeywordKeysApart();
    SurvivesContacts(m, xml, "tags");
    SurvivesContacts(m, xml, "special_tags");
  }

  /** `groups` holds the cleaned keywords of the category blocks (see `SortBlocksGroupsSound`). */
  lemma InferredGroups<N>(m: map<string, Value>, xml: Xml<N>)
    requires Ready(m) && InferValuesOf(m, xml).Ok?
    ensures var thesauri := m["keyword-list-with-thesaurus"].items;
      var r := InferValuesOf(m, xml).value;
      && SortBlocks(thesauri, xml).Ok?
      && "groups" in r && r["groups"] == List(SortBlocks(thesauri, xml).value.groups)
      && Untabbed(r["groups"].items)
  {
    var m8 := PartyStage(LocatorStage(DatesStage(m)).value);
    InputsKept(m);
    KeywordStageValues(m8, xml);
    KeywordKeysApart();
    SurvivesContacts(m, xml, "groups");
  }

  /** `publisher` and `contact` are read from the parties as `read_values` gave them. */
  lemma InferredPublisher<N>(m: map<string, Value>, xml: Xml<N>)
    requires Ready(m) && InferValuesOf(m, xml).Ok?
    ensures var parties := m["responsible-organisation"].items;
      var r := InferValuesOf(m, xml).value;
      && "publisher" in r && r["publisher"] == PublisherOf(parties)
      && "contact" in r && r["contact"] == ContactOf(parties)
  {
    var parties := m["responsible-organisation"].items;
    var m5 := LocatorStage(DatesStage(m)).value;
    DatesStageKeeps(m);
    LocatorStageKeeps(DatesStage(m));
    assert m5["responsible-organisation"].items == parties;
    var m8 := PartyStage(m5);
    PartyStageValues(m5);
    var m10 := BeforeContacts(m, xml);
    assert m10 == KeywordStage(m8, xml).value;
    KeywordStageKeeps(m8, xml);
    assert m10["publisher"] == PublisherOf(parties) && m10["contact"] == ContactOf(parties);
    KeywordKeysApart();
    SurvivesContacts(m, xml, "publisher");
    SurvivesContacts(m, xml, "contact");
  }

  /** Each `<role>-*` key holds what the last party with that role and contact information wrote. */
  lemma InferredContacts<N>(m: map<string, Value>, xml: Xml<N>, role: string, suffix: string, i: int)
    requires Ready(m) && InferValuesOf(m, xml).Ok?
    requires suffix in ContactSuffixes && LastForRoleAt(m["responsible-organisation"].items, role, i)
    ensures var r := InferValuesOf(m, xml).value;
      role + suffix in r && r[role + suffix] == ContactEntry(m["responsible-organisation"].items[i], suffix)
  {
    BeforeContactsParties(m, xml);
    var m10 := BeforeContacts(m, xml);
    LastContactWins(m10, m10["responsible-organisation"].items, role, suffix, i);
  }
}
