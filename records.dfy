/**
  The records of the two tables and the request bodies.
  A stored row is its DTO (the business record) plus the columns only the
  store keeps: the archive flag, the archive time and the row version number.
  Every nullable column is an Option; JSON configuration blocks are not part
  of this model.
 */
module Records {
  import opened Wrappers
  import opened Identifiers

  /** A LocalDateTime instant, supplied by the caller in place of now(). */
  type Timestamp = int

  /** Epoch milliseconds (start_date / end_date columns). */
  type EpochMillis = int

  /** a may precede b under created_timestamp DESC, where PostgreSQL puts NULLs first. */
  predicate NewestFirst(a: Option<Timestamp>, b: Option<Timestamp>) {
    match (a, b)
    case (None, _) => true
    case (Some(_), None) => false
    case (Some(x), Some(y)) => x >= y
  }

  /** MasterTemplateDto: one version of a template as the service sees it. */
  datatype MasterTemplate = MasterTemplate(
    masterTemplateId: Uuid,
    templateVersion: int,
    legacyTemplateId: Option<string>,
    legacyTemplateName: Option<string>,
    templateName: Option<string>,
    templateDescription: Option<string>,
    lineOfBusiness: Option<string>,
    templateCategory: Option<string>,
    templateType: Option<string>,
    languageCode: Option<string>,
    owningDept: Option<string>,
    notificationNeeded: Option<bool>,
    regulatoryFlag: Option<bool>,
    messageCenterDocFlag: Option<bool>,
    displayName: Option<string>,
    activeFlag: Option<bool>,
    sharedDocumentFlag: Option<bool>,
    sharingScope: Option<string>,
    startDate: Option<EpochMillis>,
    endDate: Option<EpochMillis>,
    createdBy: Option<string>,
    createdTimestamp: Option<Timestamp>,
    updatedBy: Option<string>,
    updatedTimestamp: Option<Timestamp>,
    recordStatus: Option<string>,
    communicationType: Option<string>,
    workflow: Option<string>,
    singleDocumentFlag: Option<bool>)

  /** MasterTemplateDefinitionEntity: a row of master_template_definition. */
  datatype TemplateRow = TemplateRow(
    template: MasterTemplate,
    archiveIndicator: bool,
    archiveTimestamp: Option<Timestamp>,
    versionNumber: Option<int>)

  /** TemplateVendorMappingDto: one vendor binding of a template version. */
  datatype VendorMapping = VendorMapping(
    templateVendorId: Uuid,
    masterTemplateId: Uuid,
    templateVersion: int,
    vendor: Option<string>,
    vendorTemplateKey: Option<string>,
    vendorTemplateName: Option<string>,
    referenceKeyType: Option<string>,
    consumerId: Option<Uuid>,
    startDate: Option<EpochMillis>,
    endDate: Option<EpochMillis>,
    vendorMappingVersion: Option<int>,
    primaryFlag: Option<bool>,
    activeFlag: Option<bool>,
    templateStatus: Option<string>,
    createdBy: Option<string>,
    createdTimestamp: Option<Timestamp>,
    updatedBy: Option<string>,
    updatedTimestamp: Option<Timestamp>,
    recordStatus: Option<string>,
    vendorType: Option<string>,
    priorityOrder: Option<int>,
    supportedRegions: Option<seq<string>>,
    vendorStatus: Option<string>,
    rateLimitPerMinute: Option<int>,
    rateLimitPerDay: Option<int>,
    timeoutMs: Option<int>,
    maxRetryAttempts: Option<int>,
    retryBackoffMs: Option<int>,
    costPerUnit: Option<real>,
    costUnit: Option<string>,
    supportedFormats: Option<seq<string>>,
    lastHealthCheck: Option<Timestamp>,
    lastHealthStatus: Option<string>,
    healthCheckEndpoint: Option<string>)

  /** TemplateVendorMappingEntity: a row of template_vendor_mapping. */
  datatype VendorRow = VendorRow(
    mapping: VendorMapping,
    archiveIndicator: bool,
    archiveTimestamp: Option<Timestamp>,
    versionNumber: Option<int>)

  /** TemplateCreateRequest; the fields bean validation requires are plain values. */
  datatype TemplateCreateRequest = TemplateCreateRequest(
    templateType: string,
    lineOfBusiness: string,
    displayName: string,
    templateName: Option<string>,
    templateDescription: Option<string>,
    templateCategory: Option<string>,
    languageCode: Option<string>,
    owningDept: Option<string>,
    notificationNeeded: Option<bool>,
    regulatoryFlag: Option<bool>,
    messageCenterDocFlag: Option<bool>,
    sharedDocumentFlag: Option<bool>,
    sharingScope: Option<string>,
    startDate: EpochMillis,
    endDate: Option<EpochMillis>,
    communicationType: Option<string>,
    workflow: Option<string>,
    singleDocumentFlag: Option<bool>,
    legacyTemplateId: Option<string>,
    legacyTemplateName: Option<string>)

  /** TemplateUpdateRequest: every field is an optional patch. */
  datatype TemplateUpdateRequest = TemplateUpdateRequest(
    templateName: Option<string>,
    templateDescription: Option<string>,
    displayName: Option<string>,
    templateCategory: Option<string>,
    languageCode: Option<string>,
    owningDept: Option<string>,
    notificationNeeded: Option<bool>,
    regulatoryFlag: Option<bool>,
    messageCenterDocFlag: Option<bool>,
    activeFlag: Option<bool>,
    sharedDocumentFlag: Option<bool>,
    sharingScope: Option<string>,
    startDate: Option<EpochMillis>,
    endDate: Option<EpochMillis>,
    communicationType: Option<string>,
    workflow: Option<string>,
    singleDocumentFlag: Option<bool>,
    recordStatus: Option<string>)

  /** TemplateVendorCreateRequest; the fields bean validation requires are plain values. */
  datatype TemplateVendorCreateRequest = TemplateVendorCreateRequest(
    masterTemplateId: Uuid,
    templateVersion: int,
    vendor: string,
    vendorType: string,
    vendorTemplateKey: string,
    vendorTemplateName: Option<string>,
    referenceKeyType: Option<string>,
    consumerId: Option<Uuid>,
    startDate: Option<EpochMillis>,
    endDate: Option<EpochMillis>,
    primaryFlag: Option<bool>,
    priorityOrder: Option<int>,
    supportedRegions: Option<seq<string>>,
    rateLimitPerMinute: Option<int>,
    rateLimitPerDay: Option<int>,
    timeoutMs: Option<int>,
    maxRetryAttempts: Option<int>,
    retryBackoffMs: Option<int>,
    costPerUnit: Option<real>,
    costUnit: Option<string>,
    supportedFormats: Option<seq<string>>,
    healthCheckEndpoint: Option<string>)

  /** TemplateVendorUpdateRequest: every field is an optional patch. */
  datatype TemplateVendorUpdateRequest = TemplateVendorUpdateRequest(
    vendorTemplateKey: Option<string>,
    vendorTemplateName: Option<string>,
    referenceKeyType: Option<string>,
    consumerId: Option<Uuid>,
    startDate: Option<EpochMillis>,
    endDate: Option<EpochMillis>,
    primaryFlag: Option<bool>,
    activeFlag: Option<bool>,
    templateStatus: Option<string>,
    priorityOrder: Option<int>,
    supportedRegions: Option<seq<string>>,
    vendorStatus: Option<string>,
    rateLimitPerMinute: Option<int>,
    rateLimitPerDay: Option<int>,
    timeoutMs: Option<int>,
    maxRetryAttempts: Option<int>,
    retryBackoffMs: Option<int>,
    costPerUnit: Option<real>,
    costUnit: Option<string>,
    supportedFormats: Option<seq<string>>,
    healthCheckEndpoint: Option<string>)

  /** "Request value if non-null, else existing value": how a patch field lands. */
  predicate Patched<T(==)>(result: Option<T>, patch: Option<T>, existing: Option<T>) {
    if patch.Some? then result == patch else result == existing
  }

  /** The patched value itself. */
  function Patch<T(==)>(patch: Option<T>, existing: Option<T>): (r: Option<T>)
    ensures Patched(r, patch, existing)
  {
    if patch.Some? then patch else existing
  }
}
