/**
 * The element lists of `GeminiDocument` and `InspireDocument`
 * (ckanext/spatial/model/harvested_metadata.py:156-1097): which named fields
 * are read from the ISO 19139 encoding of ISO 19115 metadata, by which XPath
 * search paths, with which multiplicity, and with which child elements.
 * The composite element classes (`GeminiResponsibleParty`,
 * `GeminiResourceLocator`, `GeminiDataFormat`, `GeminiReferenceDate`,
 * `GeminiCoupledResources`) contribute their class-level child lists.
 */
module Schemas {
  import opened PyText
  import opened FieldMapper

  /** The child elements of `GeminiResponsibleParty`. */
  const ResponsiblePartyFields: seq<ElementSpec> := [
    Element("organisation-name", PathList([
      "gmd:organisationName/gco:CharacterString/text()"
    ]), "0..1", []),
    Element("individual-name", PathList([
      "gmd:individualName/gco:CharacterString/text()"
    ]), "0..1", []),
    Element("position-name", PathList([
      "gmd:positionName/gco:CharacterString/text()"
    ]), "0..1", []),
    Element("contact-info", PathList([
      "gmd:contactInfo/gmd:CI_Contact"
    ]), "0..1", [
      Element("email", PathList([
        "gmd:address/gmd:CI_Address/gmd:electronicMailAddress/gco:CharacterString/text()"
      ]), "0..1", []),
      Element("deliveryPoint", PathList([
        "gmd:address/gmd:CI_Address/gmd:deliveryPoint/gco:CharacterString/text()"
      ]), "0..1", []),
      Element("city", PathList([
        "gmd:address/gmd:CI_Address/gmd:city/gco:CharacterString/text()"
      ]), "0..1", []),
      Element("adminitrativeArea", PathList([
        "gmd:address/gmd:CI_Address/gmd:adminitrativeArea/gco:CharacterString/text()"
      ]), "0..1", []),
      Element("postalCode", PathList([
        "gmd:address/gmd:CI_Address/gmd:postalCode/gco:CharacterString/text()"
      ]), "0..1", []),
      Element("country", PathList([
        "gmd:address/gmd:CI_Address/gmd:country/gco:CharacterString/text()"
      ]), "0..1", []),
      Element("url", PathList([
        "gmd:onlineResource/gmd:CI_OnlineResource/gmd:linkage/gmd:URL/text()"
      ]), "0..1", [])
    ]),
    Element("role", PathList([
      "gmd:role/gmd:CI_RoleCode/@codeListValue"
    ]), "0..1", [])
  ]

  /** The child elements of `GeminiResourceLocator`. */
  const ResourceLocatorFields: seq<ElementSpec> := [
    Element("url", PathList([
      "gmd:linkage/gmd:URL/text()"
    ]), "1", []),
    Element("function", PathList([
      "gmd:function/gmd:CI_OnLineFunctionCode/@codeListValue"
    ]), "0..1", []),
    Element("name", PathList([
      "gmd:name/gco:CharacterString/text()"
    ]), "0..1", []),
    Element("description", PathList([
      "gmd:description/gco:CharacterString/text()"
    ]), "0..1", []),
    Element("protocol", PathList([
      "gmd:protocol/gco:CharacterString/text()"
    ]), "0..1", [])
  ]

  /** The child elements of `GeminiDataFormat`. */
  const DataFormatFields: seq<ElementSpec> := [
    Element("name", PathList([
      "gmd:name/gco:CharacterString/text()"
    ]), "0..1", []),
    Element("version", PathList([
      "gmd:version/gco:CharacterString/text()"
    ]), "0..1", [])
  ]

  /** The child elements of `GeminiReferenceDate`. */
  const ReferenceDateFields: seq<ElementSpec> := [
    Element("type", PathList([
      "gmd:dateType/gmd:CI_DateTypeCode/@codeListValue",
      "gmd:dateType/gmd:CI_DateTypeCode/text()"
    ]), "0..1", []),
    Element("value", PathList([
      "gmd:date/gco:Date/text()",
      "gmd:date/gco:DateTime/text()"
    ]), "*", [])
  ]

  /** The child elements of `GeminiCoupledResources`. */
  const CoupledResourcesFields: seq<ElementSpec> := [
    Element("title", PathList([
      "@xlink:title"
    ]), "*", []),
    Element("href", PathList([
      "@xlink:href"
    ]), "*", []),
    Element("uuid", PathList([
      "@uuidref"
    ]), "*", [])
  ]

  /** `guid` (harvested_metadata.py:364). */
  const GeminiGuid: ElementSpec :=
    Element("guid", BarePath("gmd:fileIdentifier/gco:CharacterString/text()"), "0..1", [])

  /** `metadata-language` (harvested_metadata.py:369). */
  const GeminiMetadataLanguage: ElementSpec :=
    Element("metadata-language", PathList([
      "gmd:language/gmd:LanguageCode/@codeListValue",
      "gmd:language/gmd:LanguageCode/text()"
    ]), "0..1", [])

  /** `resource-type` (harvested_metadata.py:377). */
  const GeminiResourceType: ElementSpec :=
    Element("resource-type", PathList([
      "gmd:hierarchyLevel/gmd:MD_ScopeCode/@codeListValue",
      "gmd:hierarchyLevel/gmd:MD_ScopeCode/text()"
    ]), "0..1*", [])

  /** `metadata-point-of-contact` (harvested_metadata.py:385). */
  const GeminiMetadataPointOfContact: ElementSpec :=
    Element("metadata-point-of-contact", PathList([
      "gmd:identificationInfo/gmd:MD_DataIdentification/gmd:pointOfContact/gmd:CI_ResponsibleParty",
      "gmd:identificationInfo/srv:SV_ServiceIdentification/gmd:pointOfContact/gmd:CI_ResponsibleParty"
    ]), "1..*", ResponsiblePartyFields)

  /** `metadata-date` (harvested_metadata.py:393). */
  const GeminiMetadataDate: ElementSpec :=
    Element("metadata-date", PathList([
      "gmd:dateStamp/gco:DateTime/text()",
      "gmd:dateStamp/gco:Date/text()"
    ]), "1", [])

  /** `spatial-reference-system` (harvested_metadata.py:401). */
  const GeminiSpatialReferenceSystem: ElementSpec :=
    Element("spatial-reference-system", PathList([
      "gmd:referenceSystemInfo/gmd:MD_ReferenceSystem/gmd:referenceSystemIdentifier/gmd:RS_Identifier/gmd:code/gco:CharacterString/text()"
    ]), "0..1", [])

  /** `title` (harvested_metadata.py:408). */
  const GeminiTitle: ElementSpec :=
    Element("title", PathList([
      "gmd:identificationInfo/gmd:MD_DataIdentification/gmd:citation/gmd:CI_Citation/gmd:title/gco:CharacterString/text()",
      "gmd:identificationInfo/srv:SV_ServiceIdentification/gmd:citation/gmd:CI_Citation/gmd:title/gco:CharacterString/text()"
    ]), "1", [])

  /** `alternative-title` (harvested_metadata.py:416). */
  const GeminiAlternativeTitle: ElementSpec :=
    Element("alternative-title", PathList([
      "gmd:identificationInfo/gmd:MD_DataIdentification/gmd:citation/gmd:CI_Citation/gmd:alternativeTitle/gco:CharacterString/text()",
      "gmd:identificationInfo/srv:SV_ServiceIdentification/gmd:citation/gmd:CI_Citation/gmd:alternativeTitle/gco:CharacterString/text()"
    ]), "*", [])

  /** `dataset-reference-date` (harvested_metadata.py:424). */
  const GeminiDatasetReferenceDate: ElementSpec :=
    Element("dataset-reference-date", PathList([
      "gmd:identificationInfo/gmd:MD_DataIdentification/gmd:citation/gmd:CI_Citation/gmd:date/gmd:CI_Date",
      "gmd:identificationInfo/srv:SV_ServiceIdentification/gmd:citation/gmd:CI_Citation/gmd:date/gmd:CI_Date"
    ]), "*", ReferenceDateFields)

  /** `abstract` (harvested_metadata.py:441). */
  const GeminiAbstract: ElementSpec :=
    Element("abstract", PathList([
      "gmd:identificationInfo/gmd:MD_DataIdentification/gmd:abstract/gco:CharacterString/text()",
      "gmd:identificationInfo/srv:SV_ServiceIdentification/gmd:abstract/gco:CharacterString/text()"
    ]), "1", [])

  /** `responsible-organisation` (harvested_metadata.py:449). */
  const GeminiResponsibleOrganisation: ElementSpec :=
    Element("responsible-organisation", PathList([
      "gmd:identificationInfo/gmd:MD_DataIdentification/gmd:pointOfContact/gmd:CI_ResponsibleParty",
      "gmd:identificationInfo/srv:SV_ServiceIdentification/gmd:pointOfContact/gmd:CI_ResponsibleParty",
      "gmd:contact/gmd:CI_ResponsibleParty"
    ]), "1..*", ResponsiblePartyFields)

  /** `frequency-of-update` (harvested_metadata.py:458). */
  const GeminiFrequencyOfUpdate: ElementSpec :=
    Element("frequency-of-update", PathList([
      "gmd:identificationInfo/gmd:MD_DataIdentification/gmd:resourceMaintenance/gmd:MD_MaintenanceInformation/gmd:maintenanceAndUpdateFrequency/gmd:MD_MaintenanceFrequencyCode/@codeListValue",
      "gmd:identificationInfo/srv:SV_ServiceIdentification/gmd:resourceMaintenance/gmd:MD_MaintenanceInformation/gmd:maintenanceAndUpdateFrequency/gmd:MD_MaintenanceFrequencyCode/@codeListValue",
      "gmd:identificationInfo/gmd:MD_DataIdentification/gmd:resourceMaintenance/gmd:MD_MaintenanceInformation/gmd:maintenanceAndUpdateFrequency/gmd:MD_MaintenanceFrequencyCode/text()",
      "gmd:identificationInfo/srv:SV_ServiceIdentification/gmd:resourceMaintenance/gmd:MD_MaintenanceInformation/gmd:maintenanceAndUpdateFrequency/gmd:MD_MaintenanceFrequencyCode/text()"
    ]), "0..1", [])

  /** `keyword-inspire-theme` (harvested_metadata.py:469). */
  const GeminiKeywordInspireTheme: ElementSpec :=
    Element("keyword-inspire-theme", PathList([
      "gmd:identificationInfo/gmd:MD_DataIdentification/gmd:descriptiveKeywords/gmd:MD_Keywords/gmd:keyword/gco:CharacterString/text()",
      "gmd:identificationInfo/srv:SV_ServiceIdentification/gmd:descriptiveKeywords/gmd:MD_Keywords/gmd:keyword/gco:CharacterString/text()"
    ]), "*", [])

  /** `keyword-controlled-other` (harvested_metadata.py:477). */
  const GeminiKeywordControlledOther: ElementSpec :=
    Element("keyword-controlled-other", PathList([
      "gmd:identificationInfo/gmd:MD_DataIdentification/gmd:descriptiveKeywords/gmd:MD_Keywords/gmd:keyword/gco:CharacterString/text()",
      "gmd:identificationInfo/srv:SV_ServiceIdentification/gmd:descriptiveKeywords/gmd:MD_Keywords/gmd:keyword/gco:CharacterString/text()",
      "gmd:identificationInfo/srv:SV_ServiceIdentification/srv:keywords/gmd:MD_Keywords/gmd:keyword/gco:CharacterString/text()"
    ]), "*", [])

  /** `keyword-free-text` (harvested_metadata.py:486). */
  const GeminiKeywordFreeText: ElementSpec :=
    Element("keyword-free-text", PathList([]), "*", [])

  /** `limitations-on-public-access` (harvested_metadata.py:492). */
  const GeminiLimitationsOnPublicAccess: ElementSpec :=
    Element("limitations-on-public-access", PathList([
      "gmd:identificationInfo/gmd:MD_DataIdentification/gmd:resourceConstraints/gmd:MD_LegalConstraints/gmd:otherConstraints/gco:CharacterString/text()",
      "gmd:identificationInfo/srv:SV_ServiceIdentification/gmd:resourceConstraints/gmd:MD_LegalConstraints/gmd:otherConstraints/gco:CharacterString/text()"
    ]), "1..*", [])

  /** `use-constraints` (harvested_metadata.py:500). */
  const GeminiUseConstraints: ElementSpec :=
    Element("use-constraints", PathList([
      "gmd:identificationInfo/gmd:MD_DataIdentification/gmd:resourceConstraints/gmd:MD_Constraints/gmd:useLimitation/gco:CharacterString/text()",
      "gmd:identificationInfo/srv:SV_ServiceIdentification/gmd:resourceConstraints/gmd:MD_Constraints/gmd:useLimitation/gco:CharacterString/text()"
    ]), "*", [])

  /** `spatial-data-service-type` (harvested_metadata.py:508). */
  const GeminiSpatialDataServiceType: ElementSpec :=
    Element("spatial-data-service-type", PathList([
      "gmd:identificationInfo/srv:SV_ServiceIdentification/srv:serviceType/gco:LocalName/text()"
    ]), "0..1", [])

  /** `spatial-resolution` (harvested_metadata.py:515). */
  const GeminiSpatialResolution: ElementSpec :=
    Element("spatial-resolution", PathList([
      "gmd:identificationInfo/gmd:MD_DataIdentification/gmd:spatialResolution/gmd:MD_Resolution/gmd:distance/gco:Distance",
      "gmd:identificationInfo/srv:SV_ServiceIdentification/gmd:spatialResolution/gmd:MD_Resolution/gmd:distance/gco:Distance"
    ]), "0..1", [])

  /** `equivalent-scale` (harvested_metadata.py:531). */
  const GeminiEquivalentScale: ElementSpec :=
    Element("equivalent-scale", PathList([
      "gmd:identificationInfo/gmd:MD_DataIdentification/gmd:spatialResolution/gmd:MD_Resolution/gmd:equivalentScale/gmd:MD_RepresentativeFraction/gmd:denominator/gco:Integer/text()",
      "gmd:identificationInfo/srv:SV_ServiceIdentification/gmd:spatialResolution/gmd:MD_Resolution/gmd:equivalentScale/gmd:MD_RepresentativeFraction/gmd:denominator/gco:Integer/text()"
    ]), "*", [])

  /** `dataset-language` (harvested_metadata.py:539). */
  const GeminiDatasetLanguage: ElementSpec :=
    Element("dataset-language", PathList([
      "gmd:identificationInfo/gmd:MD_DataIdentification/gmd:language/gmd:LanguageCode/@codeListValue",
      "gmd:identificationInfo/srv:SV_ServiceIdentification/gmd:language/gmd:LanguageCode/@codeListValue",
      "gmd:identificationInfo/gmd:MD_DataIdentification/gmd:language/gmd:LanguageCode/text()",
      "gmd:identificationInfo/srv:SV_ServiceIdentification/gmd:language/gmd:LanguageCode/text()"
    ]), "*", [])

  /** `topic-category` (harvested_metadata.py:549). */
  const GeminiTopicCategory: ElementSpec :=
    Element("topic-category", PathList([
      "gmd:identificationInfo/gmd:MD_DataIdentification/gmd:topicCategory/gmd:MD_TopicCategoryCode/text()",
      "gmd:identificationInfo/srv:SV_ServiceIdentification/gmd:topicCategory/gmd:MD_TopicCategoryCode/text()"
    ]), "*", [])

  /** `extent-controlled` (harvested_metadata.py:557). */
  const GeminiExtentControlled: ElementSpec :=
    Element("extent-controlled", PathList([]), "*", [])

  /** `extent-free-text` (harvested_metadata.py:563). */
  const GeminiExtentFreeText: ElementSpec :=
    Element("extent-free-text", PathList([
      "gmd:identificationInfo/gmd:MD_DataIdentification/gmd:extent/gmd:EX_Extent/gmd:geographicElement/gmd:EX_GeographicDescription/gmd:geographicIdentifier/gmd:MD_Identifier/gmd:code/gco:CharacterString/text()",
      "gmd:identificationInfo/srv:SV_ServiceIdentification/srv:extent/gmd:EX_Extent/gmd:geographicElement/gmd:EX_GeographicDescription/gmd:geographicIdentifier/gmd:MD_Identifier/gmd:code/gco:CharacterString/text()"
    ]), "*", [])

  /** `bbox-west-long` (harvested_metadata.py:571). */
  const GeminiBboxWestLong: ElementSpec :=
    Element("bbox-west-long", PathList([
      "gmd:identificationInfo/gmd:MD_DataIdentification/gmd:extent/gmd:EX_Extent/gmd:geographicElement/gmd:EX_GeographicBoundingBox/gmd:westBoundLongitude/gco:Decimal/text()",
      "gmd:identificationInfo/srv:SV_ServiceIdentification/srv:extent/gmd:EX_Extent/gmd:geographicElement/gmd:EX_GeographicBoundingBox/gmd:westBoundLongitude/gco:Decimal/text()"
    ]), "0..1", [])

  /** `bbox-east-long` (harvested_metadata.py:579). */
  const GeminiBboxEastLong: ElementSpec :=
    Element("bbox-east-long", PathList([
      "gmd:identificationInfo/gmd:MD_DataIdentification/gmd:extent/gmd:EX_Extent/gmd:geographicElement/gmd:EX_GeographicBoundingBox/gmd:eastBoundLongitude/gco:Decimal/text()",
      "gmd:identificationInfo/srv:SV_ServiceIdentification/srv:extent/gmd:EX_Extent/gmd:geographicElement/gmd:EX_GeographicBoundingBox/gmd:eastBoundLongitude/gco:Decimal/text()"
    ]), "0..1", [])

  /** `bbox-north-lat` (harvested_metadata.py:587). */
  const GeminiBboxNorthLat: ElementSpec :=
    Element("bbox-north-lat", PathList([
      "gmd:identificationInfo/gmd:MD_DataIdentification/gmd:extent/gmd:EX_Extent/gmd:geographicElement/gmd:EX_GeographicBoundingBox/gmd:northBoundLatitude/gco:Decimal/text()",
      "gmd:identificationInfo/srv:SV_ServiceIdentification/srv:extent/gmd:EX_Extent/gmd:geographicElement/gmd:EX_GeographicBoundingBox/gmd:northBoundLatitude/gco:Decimal/text()"
    ]), "0..1", [])

  /** `bbox-south-lat` (harvested_metadata.py:595). */
  const GeminiBboxSouthLat: ElementSpec :=
    Element("bbox-south-lat", PathList([
      "gmd:identificationInfo/gmd:MD_DataIdentification/gmd:extent/gmd:EX_Extent/gmd:geographicElement/gmd:EX_GeographicBoundingBox/gmd:southBoundLatitude/gco:Decimal/text()",
      "gmd:identificationInfo/srv:SV_ServiceIdentification/srv:extent/gmd:EX_Extent/gmd:geographicElement/gmd:EX_GeographicBoundingBox/gmd:southBoundLatitude/gco:Decimal/text()"
    ]), "0..1", [])

  /** `temporal-extent-begin` (harvested_metadata.py:603). */
  const GeminiTemporalExtentBegin: ElementSpec :=
    Element("temporal-extent-begin", PathList([
      "gmd:identificationInfo/gmd:MD_DataIdentification/gmd:extent/gmd:EX_Extent/gmd:temporalElement/gmd:EX_TemporalExtent/gmd:extent/gml:TimePeriod/gml:beginPosition/text()",
      "gmd:identificationInfo/srv:SV_ServiceIdentification/srv:extent/gmd:EX_Extent/gmd:temporalElement/gmd:EX_TemporalExtent/gmd:extent/gml:TimePeriod/gml:beginPosition/text()"
    ]), "*", [])

  /** `temporal-extent-end` (harvested_metadata.py:611). */
  const GeminiTemporalExtentEnd: ElementSpec :=
    Element("temporal-extent-end", PathList([
      "gmd:identificationInfo/gmd:MD_DataIdentification/gmd:extent/gmd:EX_Extent/gmd:temporalElement/gmd:EX_TemporalExtent/gmd:extent/gml:TimePeriod/gml:endPosition/text()",
      "gmd:identificationInfo/srv:SV_ServiceIdentification/srv:extent/gmd:EX_Extent/gmd:temporalElement/gmd:EX_TemporalExtent/gmd:extent/gml:TimePeriod/gml:endPosition/text()"
    ]), "*", [])

  /** `vertical-extent` (harvested_metadata.py:619). */
  const GeminiVerticalExtent: ElementSpec :=
    Element("vertical-extent", PathList([
      "gmd:identificationInfo/gmd:MD_DataIdentification/gmd:extent/gmd:EX_Extent/gmd:verticalElement/gmd:EX_VerticalExtent",
      "gmd:identificationInfo/srv:SV_ServiceIdentification/srv:extent/gmd:EX_Extent/gmd:verticalElement/gmd:EX_VerticalExtent"
    ]), "*", [])

  /** `coupled-resource` (harvested_metadata.py:627). */
  const GeminiCoupledResource: ElementSpec :=
    Element("coupled-resource", PathList([
      "gmd:identificationInfo/srv:SV_ServiceIdentification/srv:operatesOn"
    ]), "*", CoupledResourcesFields)

  /** `additional-information-source` (harvested_metadata.py:641). */
  const GeminiAdditionalInformationSource: ElementSpec :=
    Element("additional-information-source", PathList([
      "gmd:identificationInfo/gmd:MD_DataIdentification/gmd:supplementalInformation/gco:CharacterString/text()"
    ]), "0..1", [])

  /** `data-format` (harvested_metadata.py:648). */
  const GeminiDataFormat: ElementSpec :=
    Element("data-format", PathList([
      "gmd:distributionInfo/gmd:MD_Distribution/gmd:distributionFormat/gmd:MD_Format"
    ]), "*", DataFormatFields)

  /** `resource-locator` (harvested_metadata.py:655). */
  const GeminiResourceLocator: ElementSpec :=
    Element("resource-locator", PathList([
      "gmd:distributionInfo/gmd:MD_Distribution/gmd:transferOptions/gmd:MD_DigitalTransferOptions/gmd:onLine/gmd:CI_OnlineResource"
    ]), "*", ResourceLocatorFields)

  /** `conformity-specification` (harvested_metadata.py:662). */
  const GeminiConformitySpecification: ElementSpec :=
    Element("conformity-specification", PathList([
      "gmd:dataQualityInfo/gmd:DQ_DataQuality/gmd:report/gmd:DQ_DomainConsistency/gmd:result/gmd:DQ_ConformanceResult/gmd:specification"
    ]), "0..1", [])

  /** `conformity-pass` (harvested_metadata.py:669). */
  const GeminiConformityPass: ElementSpec :=
    Element("conformity-pass", PathList([
      "gmd:dataQualityInfo/gmd:DQ_DataQuality/gmd:report/gmd:DQ_DomainConsistency/gmd:result/gmd:DQ_ConformanceResult/gmd:pass/gco:Boolean/text()"
    ]), "0..1", [])

  /** `conformity-explanation` (harvested_metadata.py:676). */
  const GeminiConformityExplanation: ElementSpec :=
    Element("conformity-explanation", PathList([
      "gmd:dataQualityInfo/gmd:DQ_DataQuality/gmd:report/gmd:DQ_DomainConsistency/gmd:result/gmd:DQ_ConformanceResult/gmd:explanation/gco:CharacterString/text()"
    ]), "0..1", [])

  /** `lineage` (harvested_metadata.py:683). */
  const GeminiLineage: ElementSpec :=
    Element("lineage", PathList([
      "gmd:dataQualityInfo/gmd:DQ_DataQuality/gmd:lineage/gmd:LI_Lineage/gmd:statement/gco:CharacterString/text()"
    ]), "0..1", [])

  /** `GeminiDocument.elements`, in order. */
  const GeminiElements: seq<ElementSpec> := [
    GeminiGuid,
    GeminiMetadataLanguage,
    GeminiResourceType,
    GeminiMetadataPointOfContact,
    GeminiMetadataDate,
    GeminiSpatialReferenceSystem,
    GeminiTitle,
    GeminiAlternativeTitle,
    GeminiDatasetReferenceDate,
    GeminiAbstract,
    GeminiResponsibleOrganisation,
    GeminiFrequencyOfUpdate,
    GeminiKeywordInspireTheme,
    GeminiKeywordControlledOther,
    GeminiKeywordFreeText,
    GeminiLimitationsOnPublicAccess,
    GeminiUseConstraints,
    GeminiSpatialDataServiceType,
    GeminiSpatialResolution,
    GeminiEquivalentScale,
    GeminiDatasetLanguage,
    GeminiTopicCategory,
    GeminiExtentControlled,
    GeminiExtentFreeText,
    GeminiBboxWestLong,
    GeminiBboxEastLong,
    GeminiBboxNorthLat,
    GeminiBboxSouthLat,
    GeminiTemporalExtentBegin,
    GeminiTemporalExtentEnd,
    GeminiVerticalExtent,
    GeminiCoupledResource,
    GeminiAdditionalInformationSource,
    GeminiDataFormat,
    GeminiResourceLocator,
    GeminiConformitySpecification,
    GeminiConformityPass,
    GeminiConformityExplanation,
    GeminiLineage
  ]

  /** `guid` (harvested_metadata.py:697). */
  const InspireGuid: ElementSpec :=
    Element("guid", BarePath("gmd:fileIdentifier/gco:CharacterString/text()"), "0..1", [])

  /** `metadata-language` (harvested_metadata.py:702). */
  const InspireMetadataLanguage: ElementSpec :=
    Element("metadata-language", PathList([
      "gmd:language/gmd:LanguageCode/@codeListValue",
      "gmd:language/gmd:LanguageCode/text()"
    ]), "0..1", [])

  /** `resource-type` (harvested_metadata.py:710). */
  const InspireResourceType: ElementSpec :=
    Element("resource-type", PathList([
      "gmd:hierarchyLevelName/gco:CharacterString/text()|gmd:hierarchyLevel/gmd:MD_ScopeCode/@codeListValue | gmd:hierarchyLevel/gmd:MD_ScopeCode/text()"
    ]), "1..*", [])

  /** `metadata-point-of-contact` (harvested_metadata.py:717). */
  const InspireMetadataPointOfContact: ElementSpec :=
    Element("metadata-point-of-contact", PathList([
      "gmd:identificationInfo/gmd:MD_DataIdentification/gmd:pointOfContact/gmd:CI_ResponsibleParty",
      "gmd:identificationInfo/srv:SV_ServiceIdentification/gmd:pointOfContact/gmd:CI_ResponsibleParty"
    ]), "1..*", ResponsiblePartyFields)

  /** `metadata-date` (harvested_metadata.py:725). */
  const InspireMetadataDate: ElementSpec :=
    Element("metadata-date", PathList([
      "gmd:dateStamp/gco:DateTime/text()",
      "gmd:dateStamp/gco:Date/text()"
    ]), "1", [])

  /** `spatial-reference-system` (harvested_metadata.py:733). */
  const InspireSpatialReferenceSystem: ElementSpec :=
    Element("spatial-reference-system", PathList([
      "gmd:referenceSystemInfo/gmd:MD_ReferenceSystem/gmd:referenceSystemIdentifier/gmd:RS_Identifier/gmd:code/gco:CharacterString/text()"
    ]), "0..1", [])

  /** `title` (harvested_metadata.py:740). */
  const InspireTitle: ElementSpec :=
    Element("title", PathList([
      "gmd:identificationInfo/gmd:MD_DataIdentification/gmd:citation/gmd:CI_Citation/gmd:title/gco:CharacterString/text()",
      "gmd:identificationInfo/srv:SV_ServiceIdentification/gmd:citation/gmd:CI_Citation/gmd:title/gco:CharacterString/text()"
    ]), "1", [])

  /** `alternative-title` (harvested_metadata.py:748). */
  const InspireAlternativeTitle: ElementSpec :=
    Element("alternative-title", PathList([
      "gmd:identificationInfo/gmd:MD_DataIdentification/gmd:citation/gmd:CI_Citation/gmd:alternativeTitle/gco:CharacterString/text()",
      "gmd:identificationInfo/srv:SV_ServiceIdentification/gmd:citation/gmd:CI_Citation/gmd:alternativeTitle/gco:CharacterString/text()"
    ]), "*", [])

  /** `dataset-date` (harvested_metadata.py:756). */
  const InspireDatasetDate: ElementSpec :=
    Element("dataset-date", PathList([
      "gmd:identificationInfo/gmd:MD_DataIdentification/gmd:citation/gmd:CI_Citation/gmd:date/gmd:CI_Date",
      "gmd:identificationInfo/srv:SV_ServiceIdentification/gmd:citation/gmd:CI_Citation/gmd:date/gmd:CI_Date"
    ]), "*", ReferenceDateFields)

  /** `service-date` (harvested_metadata.py:765). */
  const InspireServiceDate: ElementSpec :=
    Element("service-date", PathList([
      "gmd:identificationInfo/srv:SV_ServiceIdentification/gmd:citation/gmd:CI_Citation/gmd:date/gmd:CI_Date"
    ]), "*", ReferenceDateFields)

  /** `abstract` (harvested_metadata.py:782). */
  const InspireAbstract: ElementSpec :=
    Element("abstract", PathList([
      "gmd:identificationInfo/gmd:MD_DataIdentification/gmd:abstract/gco:CharacterString/text()",
      "gmd:identificationInfo/srv:SV_ServiceIdentification/gmd:abstract/gco:CharacterString/text()"
    ]), "1", [])

  /** `responsible-organisation` (harvested_metadata.py:790). */
  const InspireResponsibleOrganisation: ElementSpec :=
    Element("responsible-organisation", PathList([
      "gmd:identificationInfo/gmd:MD_DataIdentification/gmd:pointOfContact/gmd:CI_ResponsibleParty",
      "gmd:identificationInfo/srv:SV_ServiceIdentification/gmd:pointOfContact/gmd:CI_ResponsibleParty",
      "gmd:contact/gmd:CI_ResponsibleParty"
    ]), "1..*", ResponsiblePartyFields)

  /** `frequency-of-update` (harvested_metadata.py:799). */
  const InspireFrequencyOfUpdate: ElementSpec :=
    Element("frequency-of-update", PathList([
      "gmd:identificationInfo/gmd:MD_DataIdentification/gmd:resourceMaintenance/gmd:MD_MaintenanceInformation/gmd:maintenanceAndUpdateFrequency/gmd:MD_MaintenanceFrequencyCode/@codeListValue",
      "gmd:identificationInfo/srv:SV_ServiceIdentification/gmd:resourceMaintenance/gmd:MD_MaintenanceInformation/gmd:maintenanceAndUpdateFrequency/gmd:MD_MaintenanceFrequencyCode/@codeListValue",
      "gmd:identificationInfo/gmd:MD_DataIdentification/gmd:resourceMaintenance/gmd:MD_MaintenanceInformation/gmd:maintenanceAndUpdateFrequency/gmd:MD_MaintenanceFrequencyCode/text()",
      "gmd:identificationInfo/srv:SV_ServiceIdentification/gmd:resourceMaintenance/gmd:MD_MaintenanceInformation/gmd:maintenanceAndUpdateFrequency/gmd:MD_MaintenanceFrequencyCode/text()"
    ]), "0..1", [])

  /** `frequency-of-update-factor` (harvested_metadata.py:810). */
  const InspireFrequencyOfUpdateFactor: ElementSpec :=
    Element("frequency-of-update-factor", PathList([
      "gmd:identificationInfo/gmd:MD_DataIdentification/gmd:resourceMaintenance/gmd:MD_MaintenanceInformation/gmd:userDefinedMaintenanceFrequency/gts:TM_PeriodDuration/text()",
      "gmd:identificationInfo/srv:SV_ServiceIdentification/gmd:resourceMaintenance/gmd:MD_MaintenanceInformation/gmd:userDefinedMaintenanceFrequency/gts:TM_PeriodDuration/text()"
    ]), "0..1", [])

  /** `keyword-inspire-theme` (harvested_metadata.py:819). */
  const InspireKeywordInspireTheme: ElementSpec :=
    Element("keyword-inspire-theme", PathList([
      "gmd:identificationInfo/gmd:MD_DataIdentification/gmd:descriptiveKeywords/gmd:MD_Keywords/gmd:keyword/gco:CharacterString/text()",
      "gmd:identificationInfo/srv:SV_ServiceIdentification/gmd:descriptiveKeywords/gmd:MD_Keywords/gmd:keyword/gco:CharacterString/text()"
    ]), "*", [])

  /** `keyword-controlled-other` (harvested_metadata.py:827). */
  const InspireKeywordControlledOther: ElementSpec :=
    Element("keyword-controlled-other", PathList([
      "gmd:identificationInfo/gmd:MD_DataIdentification/gmd:descriptiveKeywords/gmd:MD_Keywords/gmd:keyword/gco:CharacterString/text()",
      "gmd:identificationInfo/srv:SV_ServiceIdentification/gmd:descriptiveKeywords/gmd:MD_Keywords/gmd:keyword/gco:CharacterString/text()",
      "gmd:identificationInfo/srv:SV_ServiceIdentification/srv:keywords/gmd:MD_Keywords/gmd:keyword/gco:CharacterString/text()"
    ]), "*", [])

  /** `keyword-free-text` (harvested_metadata.py:836). */
  const InspireKeywordFreeText: ElementSpec :=
    Element("keyword-free-text", PathList([]), "*", [])

  /** `access-constraints` (harvested_metadata.py:842). */
  const InspireAccessConstraints: ElementSpec :=
    Element("access-constraints", PathList([
      "gmd:identificationInfo/gmd:MD_DataIdentification/gmd:resourceConstraints/gmd:MD_LegalConstraints/gmd:accessConstraints/gmd:MD_RestrictionCode/text()",
      "gmd:identificationInfo/srv:SV_ServiceIdentification/gmd:resourceConstraints/gmd:MD_LegalConstraints/gmd:accessConstraints/gmd:MD_RestrictionCode/text()"
    ]), "*", [])

  /** `use-constraints` (harvested_metadata.py:850). */
  const InspireUseConstraints: ElementSpec :=
    Element("use-constraints", PathList([
      "gmd:identificationInfo/gmd:MD_DataIdentification/gmd:resourceConstraints/gmd:MD_LegalConstraints/gmd:useConstraints/gmd:MD_RestrictionCode/text()",
      "gmd:identificationInfo/srv:SV_ServiceIdentification/gmd:resourceConstraints/gmd:MD_LegalConstraints/gmd:useConstraints/gmd:MD_RestrictionCode/text()"
    ]), "*", [])

  /** `other-constraints` (harvested_metadata.py:858). */
  const InspireOtherConstraints: ElementSpec :=
    Element("other-constraints", PathList([
      "gmd:identificationInfo/gmd:MD_DataIdentification/gmd:resourceConstraints/gmd:MD_LegalConstraints/gmd:otherConstraints/gco:CharacterString/text()",
      "gmd:identificationInfo/srv:SV_ServiceIdentification/gmd:resourceConstraints/gmd:MD_LegalConstraints/gmd:otherConstraints/gco:CharacterString/text()"
    ]), "*", [])

  /** `use-limitations` (harvested_metadata.py:866). */
  const InspireUseLimitations: ElementSpec :=
    Element("use-limitations", PathList([
      "gmd:identificationInfo/gmd:MD_DataIdentification/gmd:resourceConstraints/gmd:MD_Constraints/gmd:useLimitation/gco:CharacterString/text()",
      "gmd:identificationInfo/srv:SV_ServiceIdentification/gmd:resourceConstraints/gmd:MD_Constraints/gmd:useLimitation/gco:CharacterString/text()"
    ]), "*", [])

  /** `spatial-data-service-type` (harvested_metadata.py:874). */
  const InspireSpatialDataServiceType: ElementSpec :=
    Element("spatial-data-service-type", PathList([
      "gmd:identificationInfo/srv:SV_ServiceIdentification/srv:serviceType/gco:LocalName/text()"
    ]), "0..1", [])

  /** `spatial-resolution` (harvested_metadata.py:881). */
  const InspireSpatialResolution: ElementSpec :=
    Element("spatial-resolution", PathList([
      "gmd:identificationInfo/gmd:MD_DataIdentification/gmd:spatialResolution/gmd:MD_Resolution/gmd:distance/gco:Distance",
      "gmd:identificationInfo/srv:SV_ServiceIdentification/gmd:spatialResolution/gmd:MD_Resolution/gmd:distance/gco:Distance"
    ]), "0..1", [])

  /** `equivalent-scale` (harvested_metadata.py:897). */
  const InspireEquivalentScale: ElementSpec :=
    Element("equivalent-scale", PathList([
      "gmd:identificationInfo/gmd:MD_DataIdentification/gmd:spatialResolution/gmd:MD_Resolution/gmd:equivalentScale/gmd:MD_RepresentativeFraction/gmd:denominator/gco:Integer/text()",
      "gmd:identificationInfo/srv:SV_ServiceIdentification/gmd:spatialResolution/gmd:MD_Resolution/gmd:equivalentScale/gmd:MD_RepresentativeFraction/gmd:denominator/gco:Integer/text()"
    ]), "*", [])

  /** `dataset-language` (harvested_metadata.py:905). */
  const InspireDatasetLanguage: ElementSpec :=
    Element("dataset-language", PathList([
      "gmd:identificationInfo/gmd:MD_DataIdentification/gmd:language/gmd:LanguageCode/@codeListValue",
      "gmd:identificationInfo/srv:SV_ServiceIdentification/gmd:language/gmd:LanguageCode/@codeListValue",
      "gmd:identificationInfo/gmd:MD_DataIdentification/gmd:language/gmd:LanguageCode/text()",
      "gmd:identificationInfo/srv:SV_ServiceIdentification/gmd:language/gmd:LanguageCode/text()"
    ]), "*", [])

  /** `topic-category` (harvested_metadata.py:915). */
  const InspireTopicCategory: ElementSpec :=
    Element("topic-category", PathList([
      "gmd:identificationInfo/gmd:MD_DataIdentification/gmd:topicCategory/gmd:MD_TopicCategoryCode/text()",
      "gmd:identificationInfo/srv:SV_ServiceIdentification/gmd:topicCategory/gmd:MD_TopicCategoryCode/text()"
    ]), "*", [])

  /** `extent-controlled` (harvested_metadata.py:923). */
  const InspireExtentControlled: ElementSpec :=
    Element("extent-controlled", PathList([]), "*", [])

  /** `extent-free-text` (harvested_metadata.py:929). */
  const InspireExtentFreeText: ElementSpec :=
    Element("extent-free-text", PathList([
      "gmd:identificationInfo/gmd:MD_DataIdentification/gmd:extent/gmd:EX_Extent/gmd:geographicElement/gmd:EX_GeographicDescription/gmd:geographicIdentifier/gmd:MD_Identifier/gmd:code/gco:CharacterString/text()",
      "gmd:identificationInfo/srv:SV_ServiceIdentification/srv:extent/gmd:EX_Extent/gmd:geographicElement/gmd:EX_GeographicDescription/gmd:geographicIdentifier/gmd:MD_Identifier/gmd:code/gco:CharacterString/text()"
    ]), "*", [])

  /** `bbox-west-long` (harvested_metadata.py:937). */
  const InspireBboxWestLong: ElementSpec :=
    Element("bbox-west-long", PathList([
      "gmd:identificationInfo/gmd:MD_DataIdentification/gmd:extent/gmd:EX_Extent/gmd:geographicElement/gmd:EX_GeographicBoundingBox/gmd:westBoundLongitude/gco:Decimal/text()",
      "gmd:identificationInfo/srv:SV_ServiceIdentification/srv:extent/gmd:EX_Extent/gmd:geographicElement/gmd:EX_GeographicBoundingBox/gmd:westBoundLongitude/gco:Decimal/text()"
    ]), "0..1", [])

  /** `bbox-east-long` (harvested_metadata.py:945). */
  const InspireBboxEastLong: ElementSpec :=
    Element("bbox-east-long", PathList([
      "gmd:identificationInfo/gmd:MD_DataIdentification/gmd:extent/gmd:EX_Extent/gmd:geographicElement/gmd:EX_GeographicBoundingBox/gmd:eastBoundLongitude/gco:Decimal/text()",
      "gmd:identificationInfo/srv:SV_ServiceIdentification/srv:extent/gmd:EX_Extent/gmd:geographicElement/gmd:EX_GeographicBoundingBox/gmd:eastBoundLongitude/gco:Decimal/text()"
    ]), "0..1", [])

  /** `bbox-north-lat` (harvested_metadata.py:953). */
  const InspireBboxNorthLat: ElementSpec :=
    Element("bbox-north-lat", PathList([
      "gmd:identificationInfo/gmd:MD_DataIdentification/gmd:extent/gmd:EX_Extent/gmd:geographicElement/gmd:EX_GeographicBoundingBox/gmd:northBoundLatitude/gco:Decimal/text()",
      "gmd:identificationInfo/srv:SV_ServiceIdentification/srv:extent/gmd:EX_Extent/gmd:geographicElement/gmd:EX_GeographicBoundingBox/gmd:northBoundLatitude/gco:Decimal/text()"
    ]), "0..1", [])

  /** `bbox-south-lat` (harvested_metadata.py:961). */
  const InspireBboxSouthLat: ElementSpec :=
    Element("bbox-south-lat", PathList([
      "gmd:identificationInfo/gmd:MD_DataIdentification/gmd:extent/gmd:EX_Extent/gmd:geographicElement/gmd:EX_GeographicBoundingBox/gmd:southBoundLatitude/gco:Decimal/text()",
      "gmd:identificationInfo/srv:SV_ServiceIdentification/srv:extent/gmd:EX_Extent/gmd:geographicElement/gmd:EX_GeographicBoundingBox/gmd:southBoundLatitude/gco:Decimal/text()"
    ]), "0..1", [])

  /** `temporal-extent-begin` (harvested_metadata.py:969). */
  const InspireTemporalExtentBegin: ElementSpec :=
    Element("temporal-extent-begin", PathList([
      "gmd:identificationInfo/gmd:MD_DataIdentification/gmd:extent/gmd:EX_Extent/gmd:temporalElement/gmd:EX_TemporalExtent/gmd:extent/gml:TimePeriod/gml:beginPosition/text()",
      "gmd:identificationInfo/srv:SV_ServiceIdentification/srv:extent/gmd:EX_Extent/gmd:temporalElement/gmd:EX_TemporalExtent/gmd:extent/gml:TimePeriod/gml:beginPosition/text()"
    ]), "*", [])

  /** `temporal-extent-end` (harvested_metadata.py:977). */
  const InspireTemporalExtentEnd: ElementSpec :=
    Element("temporal-extent-end", PathList([
      "gmd:identificationInfo/gmd:MD_DataIdentification/gmd:extent/gmd:EX_Extent/gmd:temporalElement/gmd:EX_TemporalExtent/gmd:extent/gml:TimePeriod/gml:endPosition/text()",
      "gmd:identificationInfo/srv:SV_ServiceIdentification/srv:extent/gmd:EX_Extent/gmd:temporalElement/gmd:EX_TemporalExtent/gmd:extent/gml:TimePeriod/gml:endPosition/text()"
    ]), "*", [])

  /** `spatial-text` (harvested_metadata.py:986). */
  const InspireSpatialText: ElementSpec :=
    Element("spatial-text", PathList([
      "gmd:identificationInfo/gmd:MD_DataIdentification/gmd:extent/gmd:EX_Extent/gmd:geographicElement/gmd:EX_GeographicDescription/gmd:geographicIdentifier/gmd:MD_Identifier/gmd:code/gco:CharacterString/text()",
      "gmd:identificationInfo/srv:SV_ServiceIdentification/srv:extent/gmd:EX_Extent/gmd:geographicElement/gmd:EX_GeographicDescription/gmd:geographicIdentifier/gmd:MD_Identifier/gmd:code/gco:CharacterString/text()"
    ]), "0..1", [])

  /** `vertical-extent` (harvested_metadata.py:995). */
  const InspireVerticalExtent: ElementSpec :=
    Element("vertical-extent", PathList([
      "gmd:identificationInfo/gmd:MD_DataIdentification/gmd:extent/gmd:EX_Extent/gmd:verticalElement/gmd:EX_VerticalExtent",
      "gmd:identificationInfo/srv:SV_ServiceIdentification/srv:extent/gmd:EX_Extent/gmd:verticalElement/gmd:EX_VerticalExtent"
    ]), "*", [])

  /** `coupled-resource` (harvested_metadata.py:1003). */
  const InspireCoupledResource: ElementSpec :=
    Element("coupled-resource", PathList([
      "gmd:identificationInfo/srv:SV_ServiceIdentification/srv:operatesOn"
    ]), "*", CoupledResourcesFields)

  /** `additional-information-source` (harvested_metadata.py:1017). */
  const InspireAdditionalInformationSource: ElementSpec :=
    Element("additional-information-source", PathList([
      "gmd:identificationInfo/gmd:MD_DataIdentification/gmd:supplementalInformation/gco:CharacterString/text()"
    ]), "0..1", [])

  /** `data-format` (harvested_metadata.py:1024). */
  const InspireDataFormat: ElementSpec :=
    Element("data-format", PathList([
      "gmd:distributionInfo/gmd:MD_Distribution/gmd:distributionFormat/gmd:MD_Format"
    ]), "*", DataFormatFields)

  /** `resource-locator` (harvested_metadata.py:1031). */
  const InspireResourceLocator: ElementSpec :=
    Element("resource-locator", PathList([
      "gmd:distributionInfo/gmd:MD_Distribution/gmd:transferOptions/gmd:MD_DigitalTransferOptions/gmd:onLine/gmd:CI_OnlineResource"
    ]), "*", ResourceLocatorFields)

  /** `service-locator` (harvested_metadata.py:1038). */
  const InspireServiceLocator: ElementSpec :=
    Element("service-locator", PathList([
      "gmd:identificationInfo/srv:SV_ServiceIdentification/srv:containsOperations/srv:SV_OperationMetadata/srv:connectPoint/gmd:CI_OnlineResource"
    ]), "*", ResourceLocatorFields)

  /** `conformity-specification` (harvested_metadata.py:1045). */
  const InspireConformitySpecification: ElementSpec :=
    Element("conformity-specification", PathList([
      "gmd:dataQualityInfo/gmd:DQ_DataQuality/gmd:report/gmd:DQ_DomainConsistency/gmd:result/gmd:DQ_ConformanceResult/gmd:specification"
    ]), "0..1", [])

  /** `conformity-pass` (harvested_metadata.py:1052). */
  const InspireConformityPass: ElementSpec :=
    Element("conformity-pass", PathList([
      "gmd:dataQualityInfo/gmd:DQ_DataQuality/gmd:report/gmd:DQ_DomainConsistency/gmd:result/gmd:DQ_ConformanceResult/gmd:pass/gco:Boolean/text()"
    ]), "0..1", [])

  /** `conformity-explanation` (harvested_metadata.py:1059). */
  const InspireConformityExplanation: ElementSpec :=
    Element("conformity-explanation", PathList([
      "gmd:dataQualityInfo/gmd:DQ_DataQuality/gmd:report/gmd:DQ_DomainConsistency/gmd:result/gmd:DQ_ConformanceResult/gmd:explanation/gco:CharacterString/text()"
    ]), "0..1", [])

  /** `lineage` (harvested_metadata.py:1066). */
  const InspireLineage: ElementSpec :=
    Element("lineage", PathList([
      "gmd:dataQualityInfo/gmd:DQ_DataQuality/gmd:lineage/gmd:LI_Lineage/gmd:statement/gco:CharacterString/text()"
    ]), "0..1", [])

  /** `keyword-list-with-thesaurus` (harvested_metadata.py:1073). */
  const InspireKeywordListWithThesaurus: ElementSpec :=
    Element("keyword-list-with-thesaurus", PathList([
      "gmd:identificationInfo/gmd:MD_DataIdentification/gmd:descriptiveKeywords/gmd:MD_Keywords[gmd:thesaurusName/gmd:CI_Citation/gmd:title/gco:CharacterString/text()]",
      "gmd:identificationInfo/srv:SV_ServiceIdentification/gmd:descriptiveKeywords/gmd:MD_Keywords[gmd:thesaurusName/gmd:CI_Citation/gmd:title/gco:CharacterString/text()]",
      "gmd:identificationInfo/gmd:MD_DataIdentification/gmd:descriptiveKeywords/gmd:MD_Keywords[gmd:thesaurusName/gmd:CI_Citation/gmd:title/gco:CharacterString/text()]",
      "gmd:identificationInfo/srv:SV_ServiceIdentification/gmd:descriptiveKeywords/gmd:MD_Keywords[gmd:thesaurusName/gmd:CI_Citation/gmd:title/gco:CharacterString/text()]",
      "gmd:identificationInfo/srv:SV_ServiceIdentification/srv:keywords/gmd:MD_Keywords[gmd:thesaurusName/gmd:CI_Citation/gmd:title/gco:CharacterString/text()]"
    ]), "*", [])

  /** `keyword-list-without-thesaurus` (harvested_metadata.py:1085). */
  const InspireKeywordListWithoutThesaurus: ElementSpec :=
    Element("keyword-list-without-thesaurus", PathList([
      "gmd:identificationInfo/gmd:MD_DataIdentification/gmd:descriptiveKeywords/gmd:MD_Keywords[not(gmd:thesaurusName)]",
      "gmd:identificationInfo/srv:SV_ServiceIdentification/gmd:descriptiveKeywords/gmd:MD_Keywords[not(gmd:thesaurusName)]",
      "gmd:identificationInfo/gmd:MD_DataIdentification/gmd:descriptiveKeywords/gmd:MD_Keywords[not(gmd:thesaurusName)]]",
      "gmd:identificationInfo/srv:SV_ServiceIdentification/gmd:descriptiveKeywords/gmd:MD_Keywords[not(gmd:thesaurusName)]]",
      "gmd:identificationInfo/srv:SV_ServiceIdentification/srv:keywords/gmd:MD_Keywords[not(gmd:thesaurusName)]]"
    ]), "*", [])

  /**
   * `InspireDocument.elements`, in order. It is kept as three shorter
   * displays joined together so that an element is found by its position
   * without walking the whole list.
   */
  const InspireElements: seq<ElementSpec> := InspireElementsHead + InspireElementsMiddle + InspireElementsTail

  /** Elements 0-15 of `InspireDocument.elements`. */
  const InspireElementsHead: seq<ElementSpec> := [
    InspireGuid,
    InspireMetadataLanguage,
    InspireResourceType,
    InspireMetadataPointOfContact,
    InspireMetadataDate,
    InspireSpatialReferenceSystem,
    InspireTitle,
    InspireAlternativeTitle,
    InspireDatasetDate,
    InspireServiceDate,
    InspireAbstract,
    InspireResponsibleOrganisation,
    InspireFrequencyOfUpdate,
    InspireFrequencyOfUpdateFactor,
    InspireKeywordInspireTheme,
    InspireKeywordControlledOther
  ]

  /** Elements 16-31 of `InspireDocument.elements`. */
  const InspireElementsMiddle: seq<ElementSpec> := [
    InspireKeywordFreeText,
    InspireAccessConstraints,
    InspireUseConstraints,
    InspireOtherConstraints,
    InspireUseLimitations,
    InspireSpatialDataServiceType,
    InspireSpatialResolution,
    InspireEquivalentScale,
    InspireDatasetLanguage,
    InspireTopicCategory,
    InspireExtentControlled,
    InspireExtentFreeText,
    InspireBboxWestLong,
    InspireBboxEastLong,
    InspireBboxNorthLat,
    InspireBboxSouthLat
  ]

  /** Elements 32-46 of `InspireDocument.elements`. */
  const InspireElementsTail: seq<ElementSpec> := [
    InspireTemporalExtentBegin,
    InspireTemporalExtentEnd,
    InspireSpatialText,
    InspireVerticalExtent,
    InspireCoupledResource,
    InspireAdditionalInformationSource,
    InspireDataFormat,
    InspireResourceLocator,
    InspireServiceLocator,
    InspireConformitySpecification,
    InspireConformityPass,
    InspireConformityExplanation,
    InspireLineage,
    InspireKeywordListWithThesaurus,
    InspireKeywordListWithoutThesaurus
  ]

  // ---------------------------------------------------------------------
  // Facts about the declarations
  // ---------------------------------------------------------------------

  /**
   * `GeminiDocument` declares `resource-type` with multiplicity `"0..1*"`,
   * which `fix_multiplicity` does not know: reading the field always raises.
   */
  lemma GeminiResourceTypeFails<N>(tree: N, xml: Xml<N>)
    ensures ReadElement(GeminiResourceType, tree, xml).Err?
    ensures GeminiResourceType.multiplicity !in Multiplicities
  {
  }

  /** So `GeminiDocument.read_values` raises for every document. */
  lemma GeminiReadValuesFails<N>(tree: N, xml: Xml<N>, unescapeText: string -> string)
    ensures ReadValuesOf(GeminiElements, |GeminiElements|, tree, xml, unescapeText).Err?
  {
    assert GeminiElements[2] == GeminiResourceType;
    GeminiResourceTypeFails(tree, xml);
    ReadValuesFailsWith(GeminiElements, 2, tree, xml, unescapeText);
  }

  /**
   * The last three search paths of `keyword-list-without-thesaurus` close the
   * predicate bracket twice; the first two close it once.
   */
  lemma MalformedKeywordPaths()
    ensures var paths := InspireKeywordListWithoutThesaurus.searchPaths.paths;
      |paths| == 5
      && EndsWith(paths[0], "(gmd:thesaurusName)]") && EndsWith(paths[1], "(gmd:thesaurusName)]")
      && EndsWith(paths[2], "(gmd:thesaurusName)]]") && EndsWith(paths[3], "(gmd:thesaurusName)]]")
      && EndsWith(paths[4], "(gmd:thesaurusName)]]")
  {
  }

  /**
   * When neither well-formed path finds a keyword block without thesaurus and
   * lxml rejects the malformed third path, reading the field raises, and with
   * it `InspireDocument.read_values`.
   */
  lemma MalformedKeywordPathRaises<N>(tree: N, xml: Xml<N>, unescapeText: string -> string)
    requires var paths := InspireKeywordListWithoutThesaurus.searchPaths.paths;
      xml.xpath(tree, paths[0]) == Found([]) && xml.xpath(tree, paths[1]) == Found([])
      && xml.xpath(tree, paths[2]) == Invalid
    ensures ReadElement(InspireKeywordListWithoutThesaurus, tree, xml)
      == Err(XPathEvalError(InspireKeywordListWithoutThesaurus.searchPaths.paths[2]))
    ensures ReadValuesOf(InspireElements, |InspireElements|, tree, xml, unescapeText).Err?
  {
    var e := InspireKeywordListWithoutThesaurus;
    var paths := e.searchPaths.paths;
    assert paths[1..][1..] == paths[2..];
    assert ReadPaths(e, paths[2..], tree, xml) == Err(XPathEvalError(paths[2]));
    assert InspireElements[46] == e;
    ReadValuesFailsWith(InspireElements, 46, tree, xml, unescapeText);
  }
}
