# ckanext-spatial harvesting core in Dafny

This project models the in-memory logic of the ckanext-spatial harvester for
German open-government (OGPD) metadata portals. The harvester reads ISO 19139
metadata documents, maps their elements onto a value dictionary, infers derived
fields for INSPIRE documents, translates legal constraints into licence records
and maintenance-frequency codes into temporal granularity, and derives the
package fields it would hand to CKAN. All of this is modelled and proved in
Dafny. As written, neither import gets that far: GEMINI `read_values` always
raises, and every INSPIRE import that reaches the copy of the extras raises
`KeyError('dataset-reference-date')` there (see below). The later decisions are therefore
modelled on their own inputs.

- **Reading an INSPIRE document** (`inspire_import.dfy`, module
  `InspireImport`). `InspireDocument.read_values` is modelled as the element
  loop followed by `infer_values`. The lemmas prove that the loop leaves every
  entry `infer_values` reads in the shape it relies on. They also prove what
  the INSPIRE import then finds in the dictionary.

- **Declarative field mapper** (`field_mapper.dfy`, module `FieldMapper`). A
  mapped element has search paths, a multiplicity and optional child elements.
  XML parsing, XPath evaluation and serialisation are an abstract oracle
  `Xml<N>`. The model covers reading an element, trying its paths in order,
  shaping the matches by multiplicity, reading composite elements child by
  child, and filling the value dictionary with unescaping.
- **Schemas** (`schemas.dfy`, module `Schemas`). These are the GEMINI and
  INSPIRE element lists as data, with their exact search paths and
  multiplicities.
- **INSPIRE inference pipeline** (`inference.dfy`, module `Inference`, as pure
  specification functions; `inspire_values.dfy`, module `InferValues`, as a
  class `InspireValues` whose `values` map is updated in place step by step).
  The steps are date roles, special-URL extraction with in-place removal,
  primary URL, tag union, publisher and contact, thesaurus-based groups and
  tags, special tags appended to the aliased tags list, and role-prefixed
  contact keys.
- **Legal constraints and licence variants.** `constraints.dfy` (module
  `LegalConstraints`) holds the shared pieces: the scan of use-limitations,
  which removes entries from the list while iterating over it, the assembly of
  the `other` text, and URL extraction. The three `translate_license_data`
  variants are in `license_map.dfy`, `licenses.dfy` and `license_map_build.dfy`.
- **Duration variants** (`duration_pattern.dfy`, `durationmap.dfy`,
  `durationmap_build.dfy`). These cover the ISO 8601 designator-format regular
  expression PnYnMnDTnHnMnS (section 4.4.3.2 of ISO 8601:2004) and the two
  `DurationTranslator` copies.
- **Pure decisions inside the harvester** (`harvester_text.dfy`,
  `harvester_parties.dfy`, `harvester_import.dfy`). These are tag
  sanitisation, `gen_new_name`, WAF href filtering, parties and provider, the
  re-import decision, the copy of the extras, date entries, temporal
  granularity, package type, WMS-preview choice and the licence-URL extra.
- **Python text helpers** (`py_text.dfy`, module `PyText`). These are the
  Python string and list primitives the source relies on: `in`, `split`,
  `replace`, `strip`, `join`, `list.remove` and order-preserving de-duplication.

Python 2 behaviour is modelled explicitly where the code depends on it:

- `groupdict(0)` yields strings, and a string is always `> 0` and never `== 5`.
- `list.remove` inside a `for` over the same list skips the following element.
- `dict.keys()` has no specified order, so the key order of
  `constraint_translation` is a parameter `order`, constrained only to list
  each key exactly once.
- `len(None)` and `None < datetime` raise `TypeError`.
- A missing dictionary key raises `KeyError`. The model returns it where the
  key can be missing: the copy of the extras and the `publisher-email` and
  `owner-email` lookups of the INSPIRE import.

Where an error can be raised, the functions return a `Result` and the lemmas
state exactly when.

Where the code and its documentation disagree, the model follows the code:

- `P5Y` translates to unit `jahr` with factor `5`. The `5-jahre` branch
  compares a string with the integer 5 and can never be taken.
- A seconds-only period yields `('', '')`.
- Unescaping is applied to top-level values only.
- The library `license_map` drops the record whenever neither a URL nor an
  attribution was found.
- The GEMINI element `resource-type` has multiplicity `"0..1*"`, so reading a
  whole GEMINI document always raises.
- Three INSPIRE keyword search paths end in `"]]"`. When XPath rejects such a
  path, the element cannot be read.
- `write_package_from_inspire_string` copies `dataset-reference-date` and
  `contact-email` from the INSPIRE values (harvesters.py:694-713).
  `InspireDocument` declares neither name, and `infer_values` writes neither.
  Every INSPIRE document that reads and reaches the copy of the extras
  therefore raises `KeyError('dataset-reference-date')` at harvesters.py:713.
  Earlier branches leave first: the raises at harvesters.py:632, :646 and
  :680, and the `None` returned at :675 and :684. That happens
  before the dates, terms of use, granularity, parties, tags, preview and
  package type are set.

## Model

| member | source | states |
|---|---|---|
| FieldMapper.GetSearchPaths | ckanext/spatial/model/harvested_metadata.py:75-80 | a bare string search path is the one-element list of that path; a list is used as given |
| FieldMapper.FixMultiplicity | ckanext/spatial/model/harvested_metadata.py:112-137 | "0" gives "" or raises when values were found; "1" gives the first value or raises when none; "0..1" gives the first value or "", never a list; "*" and "1..*" give the whole list with no error on empty; any other multiplicity raises |
| FieldMapper.ReadValue | ckanext/spatial/model/harvested_metadata.py:66-73 | the loop over search paths with early break computes exactly the element reading specification |
| FieldMapper.GetValues | ckanext/spatial/model/harvested_metadata.py:85-93 | the loop over matches converts each match, stopping at the first error, exactly as the specification |
| FieldMapper.GetValue | ckanext/spatial/model/harvested_metadata.py:95-107 | a match becomes text, a serialised element, or for a composite element a mapping read child by child, exactly as the specification |
| FieldMapper.ReadElement | ckanext/spatial/model/harvested_metadata.py:66-73 | `read_value` of one element: the paths in order, then the multiplicity rule (properties proved by FirstNonEmptyPath and ReadElementConforms) |
| FieldMapper.FirstNonEmptyPath | ckanext/spatial/model/harvested_metadata.py:66-73 | the paths yield a non-empty list v if and only if some path k yields v, every earlier path yields [], and no earlier path fails |
| FieldMapper.NoPathMatches | ckanext/spatial/model/harvested_metadata.py:66-73 | the result is the empty list if and only if every search path yields no match |
| FieldMapper.LaterPathsIgnored | ckanext/spatial/model/harvested_metadata.py:66-73 | once a prefix of the paths has found values or failed, paths appended after it never change the result, so results are never merged |
| FieldMapper.BarePathAsList | ckanext/spatial/model/harvested_metadata.py:75-80 | an element with a bare path reads exactly like the same element with a one-element path list |
| FieldMapper.CompositeKeys | ckanext/spatial/model/harvested_metadata.py:96-100 | a composite match is a mapping whose key set is exactly the set of child element names |
| FieldMapper.ReadElementConforms | ckanext/spatial/model/harvested_metadata.py:95-137 | every value read has the shape its element spec prescribes: a list only for "*"/"1..*", and composite entries with one conforming field per child |
| FieldMapper.Unescape | ckanext/spatial/model/harvested_metadata.py:28 | `HTMLParser.unescape`: fails with TypeError if and only if the value is a list holding the string '&' or a mapping with key '&' (the `'&' not in s` test passes and `re.sub` rejects the container); a string without '&' is kept, one with '&' goes through the library unescape; any other list or mapping is returned unchanged, so nested values are never unescaped |
| FieldMapper.ReadValues | ckanext/spatial/model/harvested_metadata.py:19-29 | the loop over the element list fills the dictionary exactly as the document-reading specification |
| FieldMapper.ReadValuesOf | ckanext/spatial/model/harvested_metadata.py:19-29 | the dictionary the element loop fills before inference, or the first error (properties proved by ReadValuesKeys, ReadValuesEntry and ReadValuesFailsWith) |
| FieldMapper.ReadValuesKeys | ckanext/spatial/model/harvested_metadata.py:22-25 | before inference the dictionary has exactly one key per element name of the schema |
| FieldMapper.ReadValuesEntry | ckanext/spatial/model/harvested_metadata.py:24-28 | the entry for a name is the unescaped value of the last element with that name |
| FieldMapper.ReadValuesFailsWith | ckanext/spatial/model/harvested_metadata.py:24-25 | if any element cannot be read, reading the document fails |
| FieldMapper.ReadNamedOf | ckanext/spatial/model/harvested_metadata.py:33-41 | an unknown name raises KeyError; a name matching the first element reads that element |
| FieldMapper.ReadNamed | ckanext/spatial/model/harvested_metadata.py:33-41 | the loop with early return computes the named-read specification |
| FieldMapper.ReadNamedFinds | ckanext/spatial/model/harvested_metadata.py:33-41 | read_value(name) reads the first element with that name, whatever the later ones are |
| Schemas.GeminiResourceTypeFails | ckanext/spatial/model/harvested_metadata.py:379-384 | the GEMINI resource-type multiplicity "0..1*" is not a known multiplicity, so reading the element always raises |
| Schemas.GeminiReadValuesFails | ckanext/spatial/model/harvested_metadata.py:359-683 | reading all GEMINI elements therefore fails on every document |
| Schemas.MalformedKeywordPaths | ckanext/spatial/model/harvested_metadata.py:1085-1093 | of the five keyword-list-without-thesaurus paths, the last three end in an unbalanced "]]" |
| Schemas.MalformedKeywordPathRaises | ckanext/spatial/model/harvested_metadata.py:1085-1093 | when the first two paths match nothing and XPath rejects the third, reading the element and the whole INSPIRE document fails |
| Inference.TypedValues | ckanext/spatial/model/harvested_metadata.py:1119-1123 | a value is selected if and only if some date of the requested type carries it |
| Inference.DatesOfType | ckanext/spatial/model/harvested_metadata.py:1117-1140 | the result has no duplicates, holds exactly the values of the dates of that type from service-date then dataset-date, in first-seen order |
| Inference.FoundByCount | ckanext/spatial/model/harvested_metadata.py:1147-1153 | a locator matching one pattern is collected once per occurrence, one matching both is collected twice, and other locators are never collected |
| Inference.FoundTwiceFails | ckanext/spatial/model/harvested_metadata.py:1156-1157 | a locator matching both the further-info and the Basisdaten pattern makes the removal loop raise ValueError |
| Inference.FoundByRemovedInOrder | ckanext/spatial/model/harvested_metadata.py:1156-1157 | otherwise removing the collected locators leaves exactly the unmatched ones, in their original order |
| Inference.UsedDatasets | ckanext/spatial/model/harvested_metadata.py:1147-1153 | used_datasets holds only Basisdaten names and every Basisdaten locator's name |
| Inference.FurtherInfoUrl | ckanext/spatial/model/harvested_metadata.py:1147-1153 | there is no further-info URL if and only if no name matches; otherwise it is the URL of the last match |
| Inference.SpecialUrlOf | ckanext/spatial/model/harvested_metadata.py:1143-1157 | on success only further_info, used_datasets and resource-locator change |
| Inference.SpecialUrlFails | ckanext/spatial/model/harvested_metadata.py:1143-1157 | special-URL extraction fails if and only if some locator matches both patterns |
| Inference.SpecialUrlResult | ckanext/spatial/model/harvested_metadata.py:1143-1157 | otherwise resource-locator keeps the unmatched locators in order, used_datasets lists the Basisdaten names, further_info is the last further-info URL or is left as it was |
| Inference.InformationUrl | ckanext/spatial/model/harvested_metadata.py:1160-1166 | url is the URL of the first locator with function 'information', else '' |
| Inference.TagUnion | ckanext/spatial/model/harvested_metadata.py:1168-1175 | tags is the duplicate-free, first-seen union of the three keyword fields |
| Inference.PublisherOf | ckanext/spatial/model/harvested_metadata.py:1178-1185 | publisher is the organisation name of the first publisher-role party with a non-empty name, else '' |
| Inference.ContactOf | ckanext/spatial/model/harvested_metadata.py:1187-1193 | contact is the first non-empty organisation name, else '' |
| Inference.TextQuery | ckanext/spatial/model/harvested_metadata.py:1237-1241 | an invalid XPath raises; a successful text query returns exactly the texts the XPath matched |
| Inference.Clean | ckanext/spatial/model/harvested_metadata.py:1243-1244 | a group keyword has every newline and tab removed and nothing else |
| Inference.SortBlocksSucceeds | ckanext/spatial/model/harvested_metadata.py:1235-1250 | sorting the thesaurus blocks succeeds if and only if every block can be queried |
| Inference.BlockMembers | ckanext/spatial/model/harvested_metadata.py:1237-1250 | a block's keywords go to groups, cleaned, if and only if its thesaurus titles include "OGDD-Kategorien", and to tags otherwise |
| Inference.SortBlocksGroupsSound | ckanext/spatial/model/harvested_metadata.py:1235-1250 | every group comes from an OGDD-Kategorien block |
| Inference.SortBlocksGroupsComplete | ckanext/spatial/model/harvested_metadata.py:1235-1250 | every cleaned keyword of an OGDD-Kategorien block is a group |
| Inference.SortBlocksTagsSound | ckanext/spatial/model/harvested_metadata.py:1235-1250 | every tag comes from a block that is not a category block |
| Inference.SortBlocksTagsComplete | ckanext/spatial/model/harvested_metadata.py:1235-1250 | every keyword of a non-category block is a tag |
| Inference.GroupsOf | ckanext/spatial/model/harvested_metadata.py:1226-1253 | groups are free of newlines and tabs, tags are replaced, and no other key changes |
| Inference.BlockTags | ckanext/spatial/model/harvested_metadata.py:1211-1215 | the plain keyword blocks give tags if and only if every block's query succeeds |
| Inference.SpecialTagsOf | ckanext/spatial/model/harvested_metadata.py:1203-1223 | tags and special_tags are the same list, which extends the old tags; no other key changes |
| Inference.Address | ckanext/spatial/model/harvested_metadata.py:1311-1323 | an address is non-empty if and only if deliveryPoint and postalCode are both present |
| Inference.AddressJoin | ckanext/spatial/model/harvested_metadata.py:1311-1323 | a present address is the non-empty parts in the order deliveryPoint, postalCode, city, administrative area, country, joined with ', ' |
| Inference.WriteContactSets | ckanext/spatial/model/harvested_metadata.py:1325-1330 | a party with contact info sets each of the six role-prefixed keys to its entry |
| Inference.WriteContactKeeps | ckanext/spatial/model/harvested_metadata.py:1325-1330 | every key that is not one of that role's six keys is left unchanged |
| Inference.LastContactWins | ckanext/spatial/model/harvested_metadata.py:1258-1330 | each role-prefixed key holds the entry of the last party with contact info and that role |
| Inference.PointOfContactKeeps | ckanext/spatial/model/harvested_metadata.py:1258-1330 | a key no party writes keeps its presence and value |
| Inference.RoleWithoutPartyKept | ckanext/spatial/model/harvested_metadata.py:1258-1330 | the keys of a role that no party with contact info has are left as they were |
| Inference.UnwrittenKey | ckanext/spatial/model/harvested_metadata.py:1258-1330 | a key without one of the six contact suffixes is never touched by the contact step |
| Inference.DatesStage | ckanext/spatial/model/harvested_metadata.py:1101-1103 | the date steps change only date-released, date-updated and date-created |
| Inference.LocatorStage | ckanext/spatial/model/harvested_metadata.py:1104-1105 | the locator steps change only further_info, used_datasets, resource-locator and url |
| Inference.PartyStage | ckanext/spatial/model/harvested_metadata.py:1107-1109 | the tag, publisher and contact steps change only tags, publisher and contact |
| Inference.KeywordStage | ckanext/spatial/model/harvested_metadata.py:1111-1112 | the groups and special-tags steps change only groups, tags and special_tags |
| Inference.DatesStageValues | ckanext/spatial/model/harvested_metadata.py:1117-1140 | the three date keys hold the publication, revision and creation dates |
| Inference.LocatorStageFails | ckanext/spatial/model/harvested_metadata.py:1104-1105 | the locator steps fail if and only if a locator matches both special-URL patterns |
| Inference.LocatorStageValues | ckanext/spatial/model/harvested_metadata.py:1143-1166 | url is taken from the locators that remain after extraction |
| Inference.KeywordStageFails | ckanext/spatial/model/harvested_metadata.py:1226-1253 | the keyword steps fail if and only if a thesaurus block cannot be queried, or, when thesaurus blocks exist, a plain block's query fails |
| Inference.KeywordStageValues | ckanext/spatial/model/harvested_metadata.py:1203-1253 | groups come from the category blocks; tags and special_tags are one list: the tag union when there is no thesaurus block, else the non-category block keywords followed by the plain block keywords |
| Inference.PartyStageValues | ckanext/spatial/model/harvested_metadata.py:1178-1193 | publisher and contact hold the publisher and contact of the responsible parties |
| Inference.InferValuesFails | ckanext/spatial/model/harvested_metadata.py:1099-1114 | the whole pipeline fails if and only if one of its three causes occurs |
| Inference.InferValuesOf | ckanext/spatial/model/harvested_metadata.py:1099-1114 | the nine steps of `infer_values` in order, or the first error (properties proved by InferValuesFails and the Inferred lemmas) |
| Inference.InferredFrame | ckanext/spatial/model/harvested_metadata.py:1099-1330 | a key that is none of the twelve inferred names and ends in no contact suffix is present after inference exactly when it was before, with its value unchanged |
| Inference.InferredDates | ckanext/spatial/model/harvested_metadata.py:1099-1140 | after the whole pipeline the date keys still hold the typed dates of the input |
| Inference.InferredLocators | ckanext/spatial/model/harvested_metadata.py:1099-1166 | after the whole pipeline resource-locator and url are those of the locator steps |
| Inference.InferredSpecialUrl | ckanext/spatial/model/harvested_metadata.py:1099-1157 | after the whole pipeline used_datasets and further_info are those of special-URL extraction |
| Inference.InferredTags | ckanext/spatial/model/harvested_metadata.py:1099-1253 | after the whole pipeline tags and special_tags are equal; infer_groups has overwritten the union with the block keywords whenever thesaurus blocks exist |
| Inference.InferredGroups | ckanext/spatial/model/harvested_metadata.py:1099-1253 | after the whole pipeline groups are the cleaned category keywords |
| Inference.InferredPublisher | ckanext/spatial/model/harvested_metadata.py:1099-1193 | after the whole pipeline publisher and contact are those of the input parties |
| Inference.InferredContacts | ckanext/spatial/model/harvested_metadata.py:1099-1330 | after the whole pipeline each role-prefixed key holds the entry of the last party with that role |
| InferValues.AppendMissing | ckanext/spatial/model/harvested_metadata.py:1171-1174 | the append-if-absent loop computes the order-preserving de-duplicating append |
| InferValues.ScanDates | ckanext/spatial/model/harvested_metadata.py:1119-1123 | the loop over one date list appends the new values of the requested type |
| InferValues.CollectDates | ckanext/spatial/model/harvested_metadata.py:1117-1140 | scanning service-date then dataset-date yields exactly the typed-date specification |
| InferValues.MergeKeywords | ckanext/spatial/model/harvested_metadata.py:1168-1175 | the nested loop over the three keyword fields yields exactly the tag union |
| InferValues.ScanLocators | ckanext/spatial/model/harvested_metadata.py:1147-1153 | one pass over the locators yields further_info, used_datasets and the collected locators as specified |
| InferValues.AppendKeywords | ckanext/spatial/model/harvested_metadata.py:1249-1250 | the loop appends every matched keyword as a string, in order |
| InferValues.AppendCleaned | ckanext/spatial/model/harvested_metadata.py:1242-1245 | the loop appends every matched keyword with newlines and tabs removed |
| InferValues.SortThesaurusBlocks | ckanext/spatial/model/harvested_metadata.py:1235-1250 | the loop over thesaurus blocks succeeds exactly when the specification does, with the same groups and tags |
| InferValues.AppendBlockKeywords | ckanext/spatial/model/harvested_metadata.py:1211-1215 | the loop over plain keyword blocks appends exactly the block tags, failing exactly when they fail |
| InferValues.InspireValues.constructor | ckanext/spatial/model/harvested_metadata.py:19-25 | the value map starts as the map read from the document |
| InferValues.InspireValues.InferDateReleased | ckanext/spatial/model/harvested_metadata.py:1117-1123 | only date-released is set, to the publication dates |
| InferValues.InspireValues.InferDateUpdated | ckanext/spatial/model/harvested_metadata.py:1125-1132 | only date-updated is set, to the revision dates |
| InferValues.InspireValues.InferDateCreated | ckanext/spatial/model/harvested_metadata.py:1134-1140 | only date-created is set, to the creation dates |
| InferValues.InspireValues.RemoveFound | ckanext/spatial/model/harvested_metadata.py:1156-1157 | the list.remove loop succeeds exactly when every collected locator can be removed, and then only resource-locator changes |
| InferValues.InspireValues.InferSpecialUrl | ckanext/spatial/model/harvested_metadata.py:1143-1157 | the in-place step succeeds exactly when the specification does and leaves the specified map |
| InferValues.InspireValues.InferUrl | ckanext/spatial/model/harvested_metadata.py:1160-1166 | only url is set, to the first information locator's URL |
| InferValues.InspireValues.InferTags | ckanext/spatial/model/harvested_metadata.py:1168-1175 | only tags is set, to the keyword union |
| InferValues.InspireValues.InferPublisher | ckanext/spatial/model/harvested_metadata.py:1178-1185 | only publisher is set |
| InferValues.InspireValues.InferContact | ckanext/spatial/model/harvested_metadata.py:1187-1193 | only contact is set |
| InferValues.InspireValues.InferGroups | ckanext/spatial/model/harvested_metadata.py:1226-1253 | the in-place step succeeds exactly when the groups specification does and leaves the specified map |
| InferValues.InspireValues.InferSpecialTags | ckanext/spatial/model/harvested_metadata.py:1203-1223 | the in-place step stores the extended tags list under both tags and special_tags, as specified |
| InferValues.InspireValues.InferPointOfContact | ckanext/spatial/model/harvested_metadata.py:1258-1330 | the loop over parties leaves the map of the contact specification |
| InferValues.InspireValues.WritePartyContact | ckanext/spatial/model/harvested_metadata.py:1268-1330 | one party's body of that loop: the six `<role>-*` writes, the address joined from delivery point and postal code and then city, area and country when present |
| InferValues.InspireValues.InferDates | ckanext/spatial/model/harvested_metadata.py:1101-1103 | the three date steps in order leave the date stage's map |
| InferValues.InspireValues.InferLocators | ckanext/spatial/model/harvested_metadata.py:1104-1105 | the two locator steps in order succeed exactly when the locator stage does and leave its map |
| InferValues.InspireValues.InferParties | ckanext/spatial/model/harvested_metadata.py:1107-1109 | the tag, publisher and contact steps in order leave the party stage's map |
| InferValues.InspireValues.InferKeywords | ckanext/spatial/model/harvested_metadata.py:1111-1112 | the groups and special-tags steps in order succeed exactly when the keyword stage does |
| InferValues.InspireValues.Infer | ckanext/spatial/model/harvested_metadata.py:1099-1114 | the eleven in-place steps in order succeed exactly when the pipeline specification does and leave its map |
| LegalConstraints.Gemini.constructor | ckanext/spatial/lib/license_map.py:18 | the four constraint lists are the given ones |
| LegalConstraints.Gemini.RemoveMatchedLimitations | ckanext/spatial/lib/license_map.py:67-71 | the nested loop removing matched use-limitations in place produces the scan specification's list and leaves the other three lists unchanged |
| LegalConstraints.WordPass | ckanext/spatial/lib/license_map.py:68-71 | one limitation's pass over the table words only shrinks the list, and can fail only with ValueError |
| LegalConstraints.LimitationScan | ckanext/spatial/lib/license_map.py:67-71 | the scan over use-limitations only shrinks the list, and can fail only with ValueError |
| LegalConstraints.ScanWords | ckanext/spatial/lib/license_map.py:68-71 | the inner loop over the words computes one limitation's pass |
| LegalConstraints.NoWordPass | ckanext/spatial/lib/license_map.py:68-69 | a limitation containing no table word changes nothing |
| LegalConstraints.OneWordPass | ckanext/spatial/lib/license_map.py:68-71 | a limitation containing exactly one table word is removed and sets the id to that word's licence |
| LegalConstraints.WordPassRemovesOnly | ckanext/spatial/lib/license_map.py:68-71 | a pass removes at most the scanned limitation and no other entry |
| LegalConstraints.GoneAfterMatch | ckanext/spatial/lib/license_map.py:68-71 | a single-copy limitation is gone after its first matching word |
| LegalConstraints.TwoWordsRaise | ckanext/spatial/lib/license_map.py:68-71 | a single-copy limitation containing two table words makes the second remove raise ValueError |
| LegalConstraints.ScanNoMatch | ckanext/spatial/lib/license_map.py:67-71 | with no table word in the remaining limitations the scan changes nothing |
| LegalConstraints.ScanKeepsUnmatched | ckanext/spatial/lib/license_map.py:67-71 | a limitation containing no table word keeps all its copies |
| LegalConstraints.WholeScan | ckanext/spatial/lib/license_map.py:67-71 | after a successful scan the list is a sub-multiset of the original, and the id and each removal are explained by a table word occurring in a removed limitation |
| LegalConstraints.SingleLimitation | ckanext/spatial/lib/license_map.py:67-71 | a single limitation with one table word is removed and sets the id |
| LegalConstraints.SkipsNext | ckanext/spatial/lib/license_map.py:67-71 | removing a limitation while iterating skips the next one, which stays unscanned in the list |
| LegalConstraints.ScanRaises | ckanext/spatial/lib/license_map.py:67-71 | the scan raises ValueError when it reaches a single-copy limitation containing two table words |
| LegalConstraints.FirstUrl | ckanext/spatial/lib/license_map.py:7-16 | a URL is found if and only if some constraint is URL-shaped, and then it is the first such constraint |
| LegalConstraints.ExtractLicenseUrl | ckanext/spatial/lib/licenses.py:8-17 | the early-return loop computes the first URL-shaped constraint |
| LegalConstraints.UrlAfter | ckanext/spatial/lib/licenses.py:93-95 | if any other-constraint is URL-shaped, license_url becomes the last other-constraint, whatever its shape; otherwise it is unchanged |
| LegalConstraints.ScanUrls | ckanext/spatial/lib/licenses.py:93-95 | the loop computes that URL rule |
| LegalConstraints.CodeNames | ckanext/spatial/lib/licenses.py:66-68 | the use-constraint names raise KeyError if and only if some code is missing from code_translation, naming that code |
| LegalConstraints.AccessNames | ckanext/spatial/lib/licenses.py:72-79 | the access-constraint part raises KeyError if and only if some access-constraint is a licence-table key, which is not a restriction code |
| LegalConstraints.DropLast | ckanext/spatial/lib/licenses.py:86-87 | the last character is dropped from a non-empty text; an empty text is kept |
| LegalConstraints.OtherOf | ckanext/spatial/lib/licenses.py:57-89 | the assembly of other raises KeyError if and only if a use-constraint code is missing or an access-constraint is a licence-table key |
| LegalConstraints.OtherEmpty | ckanext/spatial/lib/licenses.py:57-89 | with all four lists empty, other is '' |
| LegalConstraints.OtherStartsWithHeading | ckanext/spatial/lib/licenses.py:60-63 | with limitations or use-constraints, other starts with the use-limitations heading |
| LegalConstraints.OtherEndsWithLastConstraint | ckanext/spatial/lib/licenses.py:82-87 | with other-constraints, other ends with the last one, its trailing space dropped |
| LegalConstraints.AppendSpaced | ckanext/spatial/lib/licenses.py:62-63 | the loop appends each item followed by a space |
| LegalConstraints.AppendCodeNames | ckanext/spatial/lib/licenses.py:66-68 | the loop appends the German code names, failing exactly when the specification does |
| LegalConstraints.AppendAccessNames | ckanext/spatial/lib/licenses.py:72-79 | the loop appends the access-constraint part, failing exactly when the specification does |
| LegalConstraints.AssembleOther | ckanext/spatial/lib/licenses.py:57-89 | the four accumulator loops build exactly the specified other text or error |
| LicenseMap.Attribution | ckanext/spatial/lib/license_map.py:72-77 | an attribution exists if and only if the limitation contains 'Namensnennung:'; it is that marker followed by the text between its first and second occurrence (`split('Namensnennung:')[1]`) with every '"' removed |
| LicenseMap.LicenseOf | ckanext/spatial/lib/license_map.py:18-89 | the translation fails only with ValueError, and a kept record always has a URL or an attribution |
| LicenseMap.CanonicalUrl | ckanext/spatial/lib/license_map.py:80-82 | a URL is set if and only if the id is a key of `urls` |
| LicenseMap.LicenseOfFields | ckanext/spatial/lib/license_map.py:67-89 | for all use-limitations: the translation raises exactly when the scan does; a kept record's URL is the canonical URL of its id and its `other` is None or the attribution of one of the use-limitations; the record is dropped if and only if the id has no URL and the matched limitation has no attribution, so a URL or an attribution keeps it |
| LicenseMap.TranslateLicenseData | ckanext/spatial/lib/license_map.py:18-89 | the in-place translation returns the specified record, removes exactly the scanned limitations, and leaves the other three lists unchanged |
| LicenseMap.NoMatchDropped | ckanext/spatial/lib/license_map.py:25-27 | with no table word in any use-limitation the list is unchanged, the id stays 'other-closed' and the record is dropped |
| LicenseMap.KeptRecordExplained | ckanext/spatial/lib/license_map.py:67-89 | the id of a kept record is the licence of a table word occurring in some use-limitation |
| LicenseMap.UnmatchedKept | ckanext/spatial/lib/license_map.py:67-71 | a limitation containing no table word keeps all its copies in the caller's list |
| LicenseMap.SingleMatch | ckanext/spatial/lib/license_map.py:67-89 | a single limitation containing one table word is removed and gives that word's licence with its canonical URL and attribution |
| LicenseMap.SecondSkipped | ckanext/spatial/lib/license_map.py:67-71 | after removing the first limitation the loop skips the second, which stays in the list |
| LicenseMap.KeineAngabenRaises | ckanext/spatial/lib/license_map.py:43-48 | a single-copy first limitation containing 'keine Angaben' also contains the word 'keine', so the second remove raises ValueError |
| LicenseMap.DatenlizenzLimitation | ckanext/spatial/lib/license_map.py:94-106 | a limitation naming only 'Datenlizenz Deutschland' gives dl-de-by-1.0, its canonical URL and the attribution, and is removed |
| Licenses.IdAfter | ckanext/spatial/lib/licenses.py:98-102 | license_id is the translation of the last other-constraint that is a table key, or unchanged when none is |
| Licenses.ApplyTranslations | ckanext/spatial/lib/licenses.py:98-102 | the loop computes that id; its appends to other do not reach the result |
| Licenses.TranslationOf | ckanext/spatial/lib/licenses.py:20-112 | the translation fails only with KeyError, and a kept record has an id and a URL |
| Licenses.TranslateLicenseData | ckanext/spatial/lib/licenses.py:20-112 | the method computes the translation and does not touch the input lists |
| Licenses.TablesDisjoint | ckanext/spatial/lib/licenses.py:30-55 | no licence-table key is a restriction code |
| Licenses.FailsExactly | ckanext/spatial/lib/licenses.py:20-112 | the translation raises KeyError if and only if a use-constraint is not a restriction code or an access-constraint is a licence-table key |
| Licenses.LicenseIdOf | ckanext/spatial/lib/licenses.py:97-112 | the id is 'other-closed' without a table-key other-constraint; otherwise it is the last key's licence, and the record is dropped exactly when that licence is None |
| Licenses.LicenseUrlOf | ckanext/spatial/lib/licenses.py:91-106 | license_url is the canonical URL of the id if there is one, else the last other-constraint if any is URL-shaped, else '' |
| Licenses.EmptyListsTest | ckanext/spatial/lib/licenses.py:119-128 | all lists empty give ('other-closed', '', '') |
| Licenses.SingleUrlTest | ckanext/spatial/lib/licenses.py:130-139 | a single URL other-constraint gives that URL as license_url and other |
| Licenses.LimitationTest | ckanext/spatial/lib/licenses.py:141-150 | a single limitation gives other = heading plus the limitation |
| Licenses.LicenseUrlTest | ckanext/spatial/lib/licenses.py:152-163 | the limitation, copyright code and licence URL give the expected URL and other text |
| Licenses.OtherRestrictionsAppended | ckanext/spatial/lib/licenses.py:72-79 | an access-constraint 'otherRestrictions' is appended verbatim, without a space |
| LicenseMapBuild.IdAfter | lib.linux-i686-2.7/ckanext/spatial/lib/license_map.py:113-118 | a non-empty id is never replaced; a None id raises TypeError if and only if some other-constraint is a table key |
| LicenseMapBuild.ApplyTranslations | lib.linux-i686-2.7/ckanext/spatial/lib/license_map.py:113-118 | the loop computes that id or error |
| LicenseMapBuild.TranslationOf | lib.linux-i686-2.7/ckanext/spatial/lib/license_map.py:18-131 | a kept record has an id and a URL |
| LicenseMapBuild.TranslateLicenseData | lib.linux-i686-2.7/ckanext/spatial/lib/license_map.py:18-131 | the in-place translation returns the specified record, leaves the scanned use-limitations in the caller's list, and keeps the other lists |
| LicenseMapBuild.IdFromLimitations | lib.linux-i686-2.7/ckanext/spatial/lib/license_map.py:64-68 | the id of a kept record is 'other-closed' or the licence of a table word occurring in a use-limitation; other-constraints never change it |
| LicenseMapBuild.NoneIdOutcome | lib.linux-i686-2.7/ckanext/spatial/lib/license_map.py:113-131 | when the scan leaves a None id, a table-key other-constraint raises TypeError, and otherwise the record is dropped |
| LicenseMapBuild.MatchedLimitationLeavesOther | lib.linux-i686-2.7/ckanext/spatial/lib/license_map.py:64-131 | a single matched limitation is removed before other is assembled, so other is '' and the id and URL come from the table |
| LicenseMapBuild.OtherRestrictionsOmitted | lib.linux-i686-2.7/ckanext/spatial/lib/license_map.py:85-93 | an access-constraint 'otherRestrictions' adds nothing to other |
| LicenseMapBuild.LicenseUrlOf | lib.linux-i686-2.7/ckanext/spatial/lib/license_map.py:106-124 | license_url is the canonical URL of the id if any, else the last other-constraint if any is URL-shaped, else '' |
| LicenseMapBuild.EmptyListsTest | lib.linux-i686-2.7/ckanext/spatial/lib/license_map.py:138-147 | all lists empty give ('other-closed', '', '') |
| LicenseMapBuild.SingleUrlTest | lib.linux-i686-2.7/ckanext/spatial/lib/license_map.py:149-158 | a single URL other-constraint gives 'http://www.example.com' as license_url and other |
| LicenseMapBuild.LimitationTest | lib.linux-i686-2.7/ckanext/spatial/lib/license_map.py:160-170 | the scale limitation contains no table word and gives other = heading plus the limitation |
| LicenseMapBuild.LicenseUrlTest | lib.linux-i686-2.7/ckanext/spatial/lib/license_map.py:172-183 | the expected license_url 'http://example-license.com/' and other text |
| DurationPattern.LeadingDigits | ckanext/spatial/lib/durationmap.py:29 | the longest all-digit prefix |
| DurationPattern.UnitGroup | ckanext/spatial/lib/durationmap.py:29 | an optional group is a non-empty digit string followed by its designator, else the text is unchanged |
| DurationPattern.MatchDuration | ckanext/spatial/lib/durationmap.py:29-33 | re.match succeeds if and only if the text starts with 'P', reading only the matched prefix |
| DurationPattern.MatchRender | ckanext/spatial/lib/durationmap.py:29 | matching a rendered designator-format duration recovers exactly its components |
| DurationPattern.GroupValue | ckanext/spatial/lib/durationmap.py:33-35 | groupdict(0) gives a string exactly for matched groups and the integer 0 otherwise |
| DurationPattern.TranslateFactor | ckanext/spatial/lib/durationmap.py:27-72 | `translate_duration_factor` branch by branch (properties proved by TranslateFactorPrecedence, TranslateFactorRange and TranslateRendered) |
| DurationPattern.TranslateFactorPrecedence | ckanext/spatial/lib/durationmap.py:41-72 | the first present component among years, months, days, hours and minutes decides the unit, and the factor is that component; a non-match or none gives ('', '') |
| DurationPattern.TranslateFactorRange | ckanext/spatial/lib/durationmap.py:37-72 | the unit is one of '', jahr, monat, tag, stunde, minute; the factor is blank exactly when the unit is, and is otherwise a digit string |
| DurationPattern.TranslateRendered | ckanext/spatial/lib/durationmap.py:41-68 | a rendered duration with years gives jahr and its years; one with at most seconds gives ('', '') |
| DurationMap.TranslateDurationData | ckanext/spatial/lib/durationmap.py:6-25 | a code outside the five mapped ones gives None |
| DurationMap.CodeTranslation | ckanext/spatial/lib/durationmap.py:6-25 | daily, weekly, monthly, quarterly and annually give tag, woche, monat, quartal and jahr, and exactly these codes give a unit |
| DurationMap.TranslateDurationFactor | ckanext/spatial/lib/durationmap.py:27-72 | the unit is never '5-jahre' or 'mekunde' |
| DurationMap.FiveYears | ckanext/spatial/lib/durationmap.py:41-46 | P5Y gives jahr with factor '5' |
| DurationMap.DaysBeforeHours | ckanext/spatial/lib/durationmap.py:47-58 | P1DT12H gives tag with factor '1' |
| DurationMap.MinutesAfterT | ckanext/spatial/lib/durationmap.py:59-64 | PT2M gives minute with factor '2' |
| DurationMap.SecondsOnly | ckanext/spatial/lib/durationmap.py:65-68 | PT30S gives ('', '') because the last branch tests days again |
| DurationMapBuild.TranslateDurationFactor | lib.linux-i686-2.7/ckanext/spatial/lib/durationmap.py:49-94 | the unit is one of '', jahr, monat, tag, stunde, minute, so 'sekunde' is unreachable |
| DurationMapBuild.CodeTable | lib.linux-i686-2.7/ckanext/spatial/lib/durationmap.py:8-31 | the seven mapped codes give their unit and factor, and every other code gives no unit |
| DurationMapBuild.MergeRule | lib.linux-i686-2.7/ckanext/spatial/lib/durationmap.py:33-44 | a non-empty period unit and factor win over the code, and a blank period leaves the code's granularity |
| DurationMapBuild.TranslateDurationData | lib.linux-i686-2.7/ckanext/spatial/lib/durationmap.py:6-46 | the merge of the code granularity and the period (properties proved by TranslateDurationDataRule) |
| DurationMapBuild.TranslateDurationDataRule | lib.linux-i686-2.7/ckanext/spatial/lib/durationmap.py:6-46 | the result is the period's granularity when it has a unit, else the code table's |
| DurationMapBuild.DailyEveryThreeDays | lib.linux-i686-2.7/ckanext/spatial/lib/durationmap.py:33-37 | daily with P3D gives tag with factor '3' |
| DurationMapBuild.PeriodOverridesCode | lib.linux-i686-2.7/ckanext/spatial/lib/durationmap.py:38-40 | monthly with P1Y gives jahr with factor '1' |
| HarvesterText.KeepTagChars | ckanext/spatial/harvesters.py:862 | only ASCII letters, digits, '-', '_' and space are kept; a clean tag is unchanged |
| HarvesterText.InspireTagClean | ckanext/spatial/harvesters.py:860-863 | an INSPIRE tag has at most 50 allowed characters, a clean short tag is unchanged, and cleaning is idempotent |
| HarvesterText.GeminiTagPrefix | ckanext/spatial/harvesters.py:401 | a GEMINI tag is the first min(50, length) characters of the keyword |
| HarvesterText.BuildInspireTags | ckanext/spatial/harvesters.py:859-863 | the loop gives one clean tag per keyword, as specified |
| HarvesterText.BuildGeminiTags | ckanext/spatial/harvesters.py:399-402 | the loop gives one truncated tag per keyword, as specified |
| HarvesterText.CollapseDashes | ckanext/spatial/harvesters.py:999-1000 | the result contains no '--' and no new characters |
| HarvesterText.BaseName | ckanext/spatial/harvesters.py:997-1000 | the base name contains no '_' and no '--' |
| HarvesterText.FirstFreeSuffix | ckanext/spatial/harvesters.py:1003-1011 | the suffix is the least k from 1 up to 1000000 whose candidate is free, or none when all are taken |
| HarvesterText.NewName | ckanext/spatial/harvesters.py:997-1012 | `gen_new_name`: the base name if free, else the least free numbered candidate, else None (properties proved by NewNameSpec and NewNameFound) |
| HarvesterText.NewNameSpec | ckanext/spatial/harvesters.py:997-1012 | a new name is free and clean; it is the base name if free, else base+k for the least free k, and None exactly when the base and all million candidates are taken |
| HarvesterText.NewNameFound | ckanext/spatial/harvesters.py:997-1012 | with at most 1000000 taken names a name is always found |
| HarvesterText.GenNewName | ckanext/spatial/harvesters.py:997-1012 | the counter loop computes the specified new name |
| HarvesterText.KeepHrefs | ckanext/spatial/harvesters.py:1359-1372 | the href loop returns exactly the kept hrefs, stripped, in document order (membership proved by KeptHrefsMembers) |
| HarvesterText.KeptHrefsMembers | ckanext/spatial/harvesters.py:1358-1369 | an href is kept, stripped, if and only if it is non-empty and contains none of '?', '/', '#', 'mailto:' |
| HarvesterText.BaseDirectory | ckanext/spatial/harvesters.py:1370-1374 | the base URL always ends in '/' |
| HarvesterText.BaseDirectoryPlain | ckanext/spatial/harvesters.py:1370-1374 | a base URL whose last segment does not contain 'index' is kept, with one trailing '/' |
| HarvesterText.BaseDirectoryIndex | ckanext/spatial/harvesters.py:1370-1374 | a last segment containing 'index' is dropped |
| HarvesterText.Prefixed | ckanext/spatial/harvesters.py:1378 | each kept href is prefixed with the base |
| HarvesterText.ExtractedUrls | ckanext/spatial/harvesters.py:1348-1378 | `_extract_urls`: the kept hrefs, stripped and prefixed by the base directory (properties proved by ExtractedUrlsSpec) |
| HarvesterText.ExtractedUrlsSpec | ckanext/spatial/harvesters.py:1348-1378 | the extracted URLs are exactly the base directory followed by each kept href |
| HarvesterText.ExtractUrls | ckanext/spatial/harvesters.py:1348-1378 | the filtering and prefixing loops compute the extracted URLs |
| HarvesterParties.OwnersFirst | ckanext/spatial/harvesters.py:358-370 | there is an owner if and only if some party is an owner, and the first owner is the first owner party's organisation |
| HarvesterParties.PublishersFirst | ckanext/spatial/harvesters.py:358-370 | the same for publishers |
| HarvesterParties.ProviderSpec | ckanext/spatial/harvesters.py:382-387 | provider is the first owner's organisation, else the first publisher's |
| HarvesterParties.ProviderEmpty | ckanext/spatial/harvesters.py:382-387 | provider is '' exactly when there is no owner and no publisher |
| HarvesterParties.PointOfContactProvider | ckanext/spatial/harvesters.py:819 | the INSPIRE path counts pointOfContact as owner, the GEMINI path does not |
| HarvesterParties.RoleTableSpec | ckanext/spatial/harvesters.py:366-370 | the role table has exactly the organisations of the parties, each with its de-duplicated roles |
| HarvesterParties.RolesFirstSeen | ckanext/spatial/harvesters.py:825-829 | each organisation's roles are distinct, in first-seen order, and exactly the roles it appears with |
| HarvesterParties.Contacts | ckanext/spatial/harvesters.py:803-830 | the two contact records: a KeyError for a missing `publisher-email` or `owner-email`, else owner and publisher (properties proved by ContactsSpec) |
| HarvesterParties.ContactsSpec | ckanext/spatial/harvesters.py:803-830 | KeyError exactly when `publisher-email` or `owner-email` is missing, naming `publisher-email` first; otherwise two contacts: the last owner with no email, and the last publisher with the owner email if it is non-empty, else the publisher email |
| HarvesterParties.OwnerEmailMisplaced | ckanext/spatial/harvesters.py:810-811 | an owner's email is attached to the publisher contact, not the owner's |
| HarvesterParties.CollectParties | ckanext/spatial/harvesters.py:358-380 | the party loop collects owners, publishers, the role table and the last names as specified |
| HarvesterParties.ChooseProvider | ckanext/spatial/harvesters.py:382-387 | provider is the first owner, else the first publisher, else '' |
| HarvesterParties.Provider | ckanext/spatial/harvesters.py:382-387 | the provider extra: first owner, else first publisher, else '' (properties proved by ProviderSpec) |
| HarvesterParties.InspireParties | ckanext/spatial/harvesters.py:803-846 | raises the same KeyError as the contacts when an email key is missing; otherwise gives the specified provider, role table and contacts |
| HarvesterImport.ImportDecision | ckanext/spatial/harvesters.py:264-275 | a GUID with no current record creates a package, and more than one current record raises an application error; no other case does either |
| HarvesterImport.NeedsUpdate | ckanext/spatial/harvesters.py:280-284 | the update test: stored date missing or older, import forced, or equal dates with an inactive source (used by DecisionSpec) |
| HarvesterImport.DecisionSpec | ckanext/spatial/harvesters.py:274-310 | update when the stored date is missing or older, forced, or equal with an inactive source; a deleted package is reactivated only when strictly newer; equal dates with changed content raise; a deleted package without a date raises TypeError |
| HarvesterImport.NewerStoredSkipped | ckanext/spatial/harvesters.py:303-310 | a newer stored record is skipped unless forced |
| HarvesterImport.ForcedUpdates | ckanext/spatial/harvesters.py:280-286 | a forced import of a live package updates it |
| HarvesterImport.DeletedWithoutDateRaises | ckanext/spatial/harvesters.py:295-296 | a deleted package without a stored date raises TypeError |
| HarvesterImport.UpdateEntries | ckanext/spatial/harvesters.py:727-730 | one aktualisiert entry per updated date, in order |
| HarvesterImport.DatesSpec | ckanext/spatial/harvesters.py:715-736 | veroeffentlicht is date-released if non-empty, else metadata-date; then the aktualisiert entries; an erstellt entry with the first created date exists exactly when creation dates exist |
| HarvesterImport.BuildDates | ckanext/spatial/harvesters.py:715-736 | the loop builds the specified date entries |
| HarvesterImport.GranularityOf | ckanext/spatial/harvesters.py:758-791 | a granularity unit is never empty, and a factor is always a real factor |
| HarvesterImport.MappedCodeWins | ckanext/spatial/harvesters.py:770-774 | a mapped code sets the unit, and a factor is set only from a period with the same unit |
| HarvesterImport.FixedFrequencies | ckanext/spatial/harvesters.py:776-782 | forthnightly gives ('Tag', 14) and biannually gives ('Monat', 6) |
| HarvesterImport.PeriodFallback | ckanext/spatial/harvesters.py:783-786 | any other unmapped code takes the period's unit and factor |
| HarvesterImport.PackageType | ckanext/spatial/harvesters.py:935-958 | a type is given exactly when there are resources, and it is dokument, app or datensatz |
| HarvesterImport.PackageTypeSpec | ckanext/spatial/harvesters.py:941-958 | all-PDF gives dokument; otherwise service or application gives app, document gives dokument, the dataset kinds give datensatz, and anything else gives dokument |
| HarvesterImport.FirstWhere | ckanext/spatial/harvesters.py:918-922 | the index of the first resource with the property, or none if no resource has it |
| HarvesterImport.PreviewSpec | ckanext/spatial/harvesters.py:917-924 | the preview is the first verified WMS resource if any, else the first WMS resource, and none exactly when there is no WMS resource |
| HarvesterImport.Recommended | ckanext/spatial/harvesters.py:917-924 | the resources with `ckan_recommended_wms_preview` set on the chosen one only (properties proved by RecommendedOnlyFlag) |
| HarvesterImport.RecommendedOnlyFlag | ckanext/spatial/harvesters.py:917-924 | only the chosen resource gets the recommended flag and nothing else changes |
| HarvesterImport.ScanFor | ckanext/spatial/harvesters.py:918-922 | the scan over the resource array finds the first resource with the property |
| HarvesterImport.RecommendPreview | ckanext/spatial/harvesters.py:917-924 | the resource array is updated in place to the recommended resources |
| HarvesterImport.LicenceUrlExtraSpec | ckanext/spatial/harvesters.py:341-345 | licence_url is set exactly when some use-constraint is URL-shaped, to the first such constraint |
| HarvesterImport.LicenceUrlExtra | ckanext/spatial/harvesters.py:341-345 | the licence_url extra: the first URL of a non-empty use-constraints list when it is truthy (properties proved by LicenceUrlExtraSpec) |
| HarvesterImport.CopyExtras | ckanext/spatial/harvesters.py:694-713 | the copy of fourteen values into the extras, stopping with a KeyError at the first missing name (properties proved by CopyExtrasSpec) |
| HarvesterImport.CopyExtrasSpec | ckanext/spatial/harvesters.py:694-713 | a KeyError exactly when some name is missing, for the first missing one; otherwise every name is copied with its value and the other extras are kept |
| HarvesterImport.CopyExtrasStops | ckanext/spatial/harvesters.py:694-713 | when the names before one are all present and that one is missing, the copy fails with a KeyError for it |
| InspireImport.ReadInspireValues | ckanext/spatial/model/harvested_metadata.py:19-31 | `InspireDocument.read_values`: an error of the element loop is the result; otherwise the loop's dictionary has the shapes inference needs and the result is the inference applied to it |
| InspireImport.ReadyAfterRead | ckanext/spatial/model/harvested_metadata.py:19-31 | every dictionary the INSPIRE element loop returns has the dates, locators, parties and keyword lists in the shapes `infer_values` relies on |
| InspireImport.ListEntry | ckanext/spatial/model/harvested_metadata.py:22-28 | an element read as a list and not shadowed by a later one of the same name leaves a value of its declared shape under its name |
| InspireImport.ReadNamePresent | ckanext/spatial/model/harvested_metadata.py:22-25 | every element name is a key of the read dictionary |
| InspireImport.ReadNameAbsent | ckanext/spatial/model/harvested_metadata.py:22-25 | a name no element carries is not a key of the read dictionary |
| InspireImport.InferenceKeeps | ckanext/spatial/model/harvested_metadata.py:1099-1330 | every key that is not an inferred name and ends in no contact suffix survives inference |
| InspireImport.ReferenceDateAbsent | ckanext/spatial/harvesters.py:621-622 | the INSPIRE values never hold `dataset-reference-date`: no element has that name and inference writes none |
| InspireImport.InspireExtrasMissReferenceDate | ckanext/spatial/harvesters.py:694-713 | for every INSPIRE document that reads, copying its extras fails with KeyError('dataset-reference-date'), since the six names before it are present |
| PyText.ListRemove | ckanext/spatial/lib/license_map.py:71 | `list.remove`: ValueError exactly when the value is absent; otherwise one element fewer, all from the list |
| PyText.ListRemoveMultiset | ckanext/spatial/lib/license_map.py:71 | `list.remove` takes away exactly one occurrence |
| PyText.ReplaceAll | ckanext/spatial/harvesters.py:998-1000 | `str.replace`, left to right and non-overlapping (properties proved by ReplaceAllChars) |
| PyText.ReplaceAllChars | ckanext/spatial/harvesters.py:998-1000 | every character of the result comes from the string or from the replacement |
| PyText.Strip | ckanext/spatial/harvesters.py:1361 | `url.strip()` on what lxml returns: a byte string for 7-bit text, stripped of the byte-string white space; unicode otherwise, stripped of Python 2.7's unicode white space; no white space of that set is left at either end |
| PyText.StripContained | ckanext/spatial/harvesters.py:1361 | `strip()` removes exactly a run of white space at each end: the result occurs in the argument with only white space before and after it, and adds no character |
| PyText.NoBreakSpaceStripped | ckanext/spatial/harvesters.py:1361 | a no-break space (`&nbsp;`) is white space in unicode: it strips to the empty string |
| PyText.FileSeparatorKept | ckanext/spatial/harvesters.py:1361 | `'\x1c'` is not white space in a byte string, so stripping keeps it |
| HarvesterText.NoBreakSpaceHrefSkipped | ckanext/spatial/harvesters.py:1361-1363 | an href that is only a no-break space strips to '' and is skipped |
| PyText.SplitChar | ckanext/spatial/harvesters.py:1373 | `str.split` on one character: at least one part, and no part holds the separator |
| PyText.Join | ckanext/spatial/harvesters.py:1376 | `str.join` (properties proved by JoinSplitChar) |
| PyText.JoinSplitChar | ckanext/spatial/harvesters.py:1373-1376 | joining the parts of a split with the same separator gives the string back |
| PyText.FirstOccurrences | ckanext/spatial/harvesters.py:825-827 | each value once, in the order of its first occurrence (the append-if-absent loop, by AppendNewIsFirstOccurrences) |
| PyText.AppendNewIsFirstOccurrences | ckanext/spatial/harvesters.py:825-827 | the append-if-absent loop appends exactly the first occurrences, in order |

## Left out

- XML parsing, XPath evaluation and element serialisation are lxml calls. They are the abstract oracle `Xml<N>` (parse, xpath, tostring), and the buggy unicode branch of `get_xml_part_tree_` is not modelled.
- HarvesterText.ExtractUrls: the HTML parse of the WAF index page and its `//a/@href` query are not modelled; the href values are the parameter `hrefs`. The parse failure re-raised as `Exception` at harvesters.py:1352-1357, and the `None` tree lxml gives for an empty page (whose `xpath` call then raises `AttributeError`), are therefore outside the model.
- `HTMLParser().unescape`, `urlparse` (the URL-shape test), `munge_title_to_name` and the database query for names already taken are function or sequence parameters. `datetime.strptime` and `datetime.now` are not modelled: a metadata date is an abstract integer.
- `dict.keys()` iteration order is a parameter `order`. Nothing proved depends on a particular order except through it, and the order-dependent `parties` summary string is not modelled.
- Everything networked or persistent in the harvester is not modelled:
  - gather and fetch stages, and Session queries and commits;
  - urllib2 probes, and with them resource and service handling;
  - package creation and update;
  - Destatis zip and temporary-file handling;
  - validators;
  - the CSW client and the validation command;
  - the GeoJSON extent template;
  - `groupmap.Util.translate`, whose source is not part of this model.
- The Destatis variant of handle_licenses appends 'CC-BY 3.0' to other-constraints before calling the library license_map. That append is not modelled; `LicenseMap.LicenseOf` reads only use-limitations, so it cannot change the result.
- `infer_contact_email` is disabled in `infer_values` and is not modelled.
- GEMINI `read_values` always raises, because of the `"0..1*"` multiplicity. Its inference is therefore modelled only through `Schemas.GeminiReadValuesFails`.
- InferValues.InspireValues.Infer: the in-place steps state what the map is after success; after a failure they state only that the step failed, not the partly updated map.
- InferValues.InspireValues.InferSpecialUrl: further_info is written once after the locator loop rather than on every match inside it. The final map is the same.
- DurationMap.TranslateDurationData: takes a string. The source's test passes a one-element list, which is also outside the table and also gives None.
- FieldMapper.Unescape: the unescaped text is an uninterpreted function of the original, so only its shape is stated.
