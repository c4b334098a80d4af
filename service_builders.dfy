/**
  The four record constructors of TemplateService: a new template row, the row
  an update writes, a new vendor mapping row and the row a mapping update
  writes. A default is stated as a patch over the default value: Patched(f,
  given, Some(d)) is "given if present, else d".
 */
module EntityBuilders {
  import opened Wrappers
  import opened Identifiers
  import opened Records
  import TemplateRepo
  import VendorRepo

  /** buildTemplateEntity: a live, active DRAFT row with row version 1 and the create defaults. */
  function BuildTemplateEntity(req: TemplateCreateRequest, id: Uuid, version: int, createdBy: string, now: Timestamp)
    : (r: TemplateRow)
    ensures r.template.masterTemplateId == id && r.template.templateVersion == version
    ensures TemplateRepo.Live(r) && r.archiveTimestamp.None? && r.versionNumber == Some(1)
    ensures r.template.activeFlag == Some(true) && r.template.recordStatus == Some("DRAFT")
    ensures r.template.templateType == Some(req.templateType)
    ensures r.template.lineOfBusiness == Some(req.lineOfBusiness)
    ensures r.template.displayName == Some(req.displayName)
    ensures Patched(r.template.languageCode, req.languageCode, Some("en"))
    ensures Patched(r.template.notificationNeeded, req.notificationNeeded, Some(false))
    ensures Patched(r.template.regulatoryFlag, req.regulatoryFlag, Some(false))
    ensures Patched(r.template.messageCenterDocFlag, req.messageCenterDocFlag, Some(false))
    ensures Patched(r.template.sharedDocumentFlag, req.sharedDocumentFlag, Some(false))
    ensures Patched(r.template.communicationType, req.communicationType, Some("LETTER"))
    ensures Patched(r.template.workflow, req.workflow, Some("2_EYES"))
    ensures Patched(r.template.singleDocumentFlag, req.singleDocumentFlag, Some(true))
    ensures r.template.templateName == req.templateName && r.template.templateDescription == req.templateDescription
    ensures r.template.templateCategory == req.templateCategory && r.template.owningDept == req.owningDept
    ensures r.template.sharingScope == req.sharingScope
    ensures r.template.startDate == Some(req.startDate) && r.template.endDate == req.endDate
    ensures r.template.legacyTemplateId == req.legacyTemplateId
    ensures r.template.legacyTemplateName == req.legacyTemplateName
    ensures r.template.createdBy == Some(createdBy) && r.template.updatedBy == Some(createdBy)
    ensures r.template.createdTimestamp == Some(now) && r.template.updatedTimestamp == Some(now)
  {
    var t := MasterTemplate(
      masterTemplateId := id,
      templateVersion := version,
      legacyTemplateId := req.legacyTemplateId,
      legacyTemplateName := req.legacyTemplateName,
      templateName := req.templateName,
      templateDescription := req.templateDescription,
      lineOfBusiness := Some(req.lineOfBusiness),
      templateCategory := req.templateCategory,
      templateType := Some(req.templateType),
      languageCode := Some(req.languageCode.GetOr("en")),
      owningDept := req.owningDept,
      notificationNeeded := Some(req.notificationNeeded.GetOr(false)),
      regulatoryFlag := Some(req.regulatoryFlag.GetOr(false)),
      messageCenterDocFlag := Some(req.messageCenterDocFlag.GetOr(false)),
      displayName := Some(req.displayName),
      activeFlag := Some(true),
      sharedDocumentFlag := Some(req.sharedDocumentFlag.GetOr(false)),
      sharingScope := req.sharingScope,
      startDate := Some(req.startDate),
      endDate := req.endDate,
      createdBy := Some(createdBy),
      createdTimestamp := Some(now),
      updatedBy := Some(createdBy),
      updatedTimestamp := Some(now),
      recordStatus := Some("DRAFT"),
      communicationType := Some(req.communicationType.GetOr("LETTER")),
      workflow := Some(req.workflow.GetOr("2_EYES")),
      singleDocumentFlag := Some(req.singleDocumentFlag.GetOr(true)));
    TemplateRow(t, false, None, Some(1))
  }

  /**
    buildUpdatedEntity: the existing record with the request patched over it,
    under the given version. Identity, type, line of business, legacy ids and
    creation stamps always come from the existing record.
   */
  function BuildUpdatedEntity(existing: MasterTemplate, req: TemplateUpdateRequest, version: int,
                              updatedBy: string, now: Timestamp): (r: TemplateRow)
    ensures r.template.masterTemplateId == existing.masterTemplateId && r.template.templateVersion == version
    ensures TemplateRepo.Live(r) && r.archiveTimestamp.None?
    ensures r.versionNumber == Some(existing.templateVersion + 1)
    ensures r.template.templateType == existing.templateType
    ensures r.template.lineOfBusiness == existing.lineOfBusiness
    ensures r.template.legacyTemplateId == existing.legacyTemplateId
    ensures r.template.legacyTemplateName == existing.legacyTemplateName
    ensures r.template.createdBy == existing.createdBy && r.template.createdTimestamp == existing.createdTimestamp
    ensures r.template.updatedBy == Some(updatedBy) && r.template.updatedTimestamp == Some(now)
    ensures Patched(r.template.displayName, req.displayName, existing.displayName)
    ensures Patched(r.template.templateName, req.templateName, existing.templateName)
    ensures Patched(r.template.templateDescription, req.templateDescription, existing.templateDescription)
    ensures Patched(r.template.templateCategory, req.templateCategory, existing.templateCategory)
    ensures Patched(r.template.languageCode, req.languageCode, existing.languageCode)
    ensures Patched(r.template.owningDept, req.owningDept, existing.owningDept)
    ensures Patched(r.template.notificationNeeded, req.notificationNeeded, existing.notificationNeeded)
    ensures Patched(r.template.regulatoryFlag, req.regulatoryFlag, existing.regulatoryFlag)
    ensures Patched(r.template.messageCenterDocFlag, req.messageCenterDocFlag, existing.messageCenterDocFlag)
    ensures Patched(r.template.activeFlag, req.activeFlag, existing.activeFlag)
    ensures Patched(r.template.sharedDocumentFlag, req.sharedDocumentFlag, existing.sharedDocumentFlag)
    ensures Patched(r.template.sharingScope, req.sharingScope, existing.sharingScope)
    ensures Patched(r.template.startDate, req.startDate, existing.startDate)
    ensures Patched(r.template.endDate, req.endDate, existing.endDate)
    ensures Patched(r.template.communicationType, req.communicationType, existing.communicationType)
    ensures Patched(r.template.workflow, req.workflow, existing.workflow)
    ensures Patched(r.template.singleDocumentFlag, req.singleDocumentFlag, existing.singleDocumentFlag)
    ensures Patched(r.template.recordStatus, req.recordStatus, existing.recordStatus)
  {
    var t := MasterTemplate(
      masterTemplateId := existing.masterTemplateId,
      templateVersion := version,
      legacyTemplateId := existing.legacyTemplateId,
      legacyTemplateName := existing.legacyTemplateName,
      templateName := Patch(req.templateName, existing.templateName),
      templateDescription := Patch(req.templateDescription, existing.templateDescription),
      lineOfBusiness := existing.lineOfBusiness,
      templateCategory := Patch(req.templateCategory, existing.templateCategory),
      templateType := existing.templateType,
      languageCode := Patch(req.languageCode, existing.languageCode),
      owningDept := Patch(req.owningDept, existing.owningDept),
      notificationNeeded := Patch(req.notificationNeeded, existing.notificationNeeded),
      regulatoryFlag := Patch(req.regulatoryFlag, existing.regulatoryFlag),
      messageCenterDocFlag := Patch(req.messageCenterDocFlag, existing.messageCenterDocFlag),
      displayName := Patch(req.displayName, existing.displayName),
      activeFlag := Patch(req.activeFlag, existing.activeFlag),
      sharedDocumentFlag := Patch(req.sharedDocumentFlag, existing.sharedDocumentFlag),
      sharingScope := Patch(req.sharingScope, existing.sharingScope),
      startDate := Patch(req.startDate, existing.startDate),
      endDate := Patch(req.endDate, existing.endDate),
      createdBy := existing.createdBy,
      createdTimestamp := existing.createdTimestamp,
      updatedBy := Some(updatedBy),
      updatedTimestamp := Some(now),
      recordStatus := Patch(req.recordStatus, existing.recordStatus),
      communicationType := Patch(req.communicationType, existing.communicationType),
      workflow := Patch(req.workflow, existing.workflow),
      singleDocumentFlag := Patch(req.singleDocumentFlag, existing.singleDocumentFlag));
    TemplateRow(t, false, None, Some(existing.templateVersion + 1))
  }

  /** The update request that patches nothing. */
  const EmptyTemplatePatch := TemplateUpdateRequest(None, None, None, None, None, None, None, None, None,
                                                    None, None, None, None, None, None, None, None, None)

  /** An empty patch under the same version changes nothing but the update stamps. */
  lemma EmptyPatchKeepsTemplate(existing: MasterTemplate, updatedBy: string, now: Timestamp)
    ensures BuildUpdatedEntity(existing, EmptyTemplatePatch, existing.templateVersion, updatedBy, now).template
         == existing.(updatedBy := Some(updatedBy), updatedTimestamp := Some(now))
  {
  }

  /** Applying the same patch to its own result gives the same record: patches are idempotent. */
  lemma TemplatePatchIdempotent(existing: MasterTemplate, req: TemplateUpdateRequest, version: int,
                                updatedBy: string, now: Timestamp)
    ensures var once := BuildUpdatedEntity(existing, req, version, updatedBy, now).template;
      BuildUpdatedEntity(once, req, version, updatedBy, now).template == once
  {
  }

  /**
    buildVendorEntity: a live, active DRAFT mapping with mapping version 1,
    status ACTIVE and the create defaults; the start date defaults to now.
   */
  function BuildVendorEntity(req: TemplateVendorCreateRequest, createdBy: string, newId: Uuid,
                             nowMillis: EpochMillis, now: Timestamp): (r: VendorRow)
    ensures r.mapping.templateVendorId == newId
    ensures r.mapping.masterTemplateId == req.masterTemplateId && r.mapping.templateVersion == req.templateVersion
    ensures r.mapping.vendor == Some(req.vendor) && r.mapping.vendorType == Some(req.vendorType)
    ensures r.mapping.vendorTemplateKey == Some(req.vendorTemplateKey)
    ensures VendorRepo.Live(r) && r.archiveTimestamp.None? && r.versionNumber == Some(1)
    ensures r.mapping.vendorMappingVersion == Some(1) && r.mapping.activeFlag == Some(true)
    ensures r.mapping.templateStatus == Some("DRAFT") && r.mapping.recordStatus == Some("DRAFT")
    ensures r.mapping.vendorStatus == Some("ACTIVE")
    ensures Patched(r.mapping.startDate, req.startDate, Some(nowMillis))
    ensures Patched(r.mapping.primaryFlag, req.primaryFlag, Some(false))
    ensures Patched(r.mapping.priorityOrder, req.priorityOrder, Some(1))
    ensures Patched(r.mapping.timeoutMs, req.timeoutMs, Some(30000))
    ensures Patched(r.mapping.maxRetryAttempts, req.maxRetryAttempts, Some(3))
    ensures Patched(r.mapping.retryBackoffMs, req.retryBackoffMs, Some(1000))
    ensures r.mapping.vendorTemplateName == req.vendorTemplateName && r.mapping.referenceKeyType == req.referenceKeyType
    ensures r.mapping.consumerId == req.consumerId && r.mapping.endDate == req.endDate
    ensures r.mapping.rateLimitPerMinute == req.rateLimitPerMinute && r.mapping.rateLimitPerDay == req.rateLimitPerDay
    ensures r.mapping.costPerUnit == req.costPerUnit && r.mapping.costUnit == req.costUnit
    ensures r.mapping.healthCheckEndpoint == req.healthCheckEndpoint
    ensures r.mapping.supportedRegions.None? && r.mapping.supportedFormats.None?
    ensures r.mapping.lastHealthCheck.None? && r.mapping.lastHealthStatus.None?
    ensures r.mapping.createdBy == Some(createdBy) && r.mapping.updatedBy == Some(createdBy)
    ensures r.mapping.createdTimestamp == Some(now) && r.mapping.updatedTimestamp == Some(now)
  {
    var m := VendorMapping(
      templateVendorId := newId,
      masterTemplateId := req.masterTemplateId,
      templateVersion := req.templateVersion,
      vendor := Some(req.vendor),
      vendorTemplateKey := Some(req.vendorTemplateKey),
      vendorTemplateName := req.vendorTemplateName,
      referenceKeyType := req.referenceKeyType,
      consumerId := req.consumerId,
      startDate := Some(req.startDate.GetOr(nowMillis)),
      endDate := req.endDate,
      vendorMappingVersion := Some(1),
      primaryFlag := Some(req.primaryFlag.GetOr(false)),
      activeFlag := Some(true),
      templateStatus := Some("DRAFT"),
      createdBy := Some(createdBy),
      createdTimestamp := Some(now),
      updatedBy := Some(createdBy),
      updatedTimestamp := Some(now),
      recordStatus := Some("DRAFT"),
      vendorType := Some(req.vendorType),
      priorityOrder := Some(req.priorityOrder.GetOr(1)),
      supportedRegions := None,
      vendorStatus := Some("ACTIVE"),
      rateLimitPerMinute := req.rateLimitPerMinute,
      rateLimitPerDay := req.rateLimitPerDay,
      timeoutMs := Some(req.timeoutMs.GetOr(30000)),
      maxRetryAttempts := Some(req.maxRetryAttempts.GetOr(3)),
      retryBackoffMs := Some(req.retryBackoffMs.GetOr(1000)),
      costPerUnit := req.costPerUnit,
      costUnit := req.costUnit,
      supportedFormats := None,
      lastHealthCheck := None,
      lastHealthStatus := None,
      healthCheckEndpoint := req.healthCheckEndpoint);
    VendorRow(m, false, None, Some(1))
  }

  /**
    buildUpdatedVendorEntity: the existing mapping with the request patched over
    it. Identity, slot, vendor, mapping version, record status and creation
    stamps come from the existing mapping; supported regions and formats and the
    last health columns are not carried over.
   */
  function BuildUpdatedVendorEntity(existing: VendorMapping, req: TemplateVendorUpdateRequest,
                                    updatedBy: string, now: Timestamp): (r: VendorRow)
    ensures r.mapping.templateVendorId == existing.templateVendorId
    ensures r.mapping.masterTemplateId == existing.masterTemplateId
    ensures r.mapping.templateVersion == existing.templateVersion
    ensures r.mapping.vendor == existing.vendor && r.mapping.vendorType == existing.vendorType
    ensures r.mapping.vendorMappingVersion == existing.vendorMappingVersion
    ensures r.mapping.recordStatus == existing.recordStatus
    ensures r.mapping.createdBy == existing.createdBy && r.mapping.createdTimestamp == existing.createdTimestamp
    ensures r.mapping.updatedBy == Some(updatedBy) && r.mapping.updatedTimestamp == Some(now)
    ensures VendorRepo.Live(r) && r.archiveTimestamp.None?
    ensures r.versionNumber == if existing.vendorMappingVersion.Some? then Some(existing.vendorMappingVersion.value + 1)
                               else Some(1)
    ensures Patched(r.mapping.vendorTemplateKey, req.vendorTemplateKey, existing.vendorTemplateKey)
    ensures Patched(r.mapping.vendorTemplateName, req.vendorTemplateName, existing.vendorTemplateName)
    ensures Patched(r.mapping.referenceKeyType, req.referenceKeyType, existing.referenceKeyType)
    ensures Patched(r.mapping.consumerId, req.consumerId, existing.consumerId)
    ensures Patched(r.mapping.startDate, req.startDate, existing.startDate)
    ensures Patched(r.mapping.endDate, req.endDate, existing.endDate)
    ensures Patched(r.mapping.primaryFlag, req.primaryFlag, existing.primaryFlag)
    ensures Patched(r.mapping.activeFlag, req.activeFlag, existing.activeFlag)
    ensures Patched(r.mapping.templateStatus, req.templateStatus, existing.templateStatus)
    ensures Patched(r.mapping.priorityOrder, req.priorityOrder, existing.priorityOrder)
    ensures Patched(r.mapping.vendorStatus, req.vendorStatus, existing.vendorStatus)
    ensures Patched(r.mapping.rateLimitPerMinute, req.rateLimitPerMinute, existing.rateLimitPerMinute)
    ensures Patched(r.mapping.rateLimitPerDay, req.rateLimitPerDay, existing.rateLimitPerDay)
    ensures Patched(r.mapping.timeoutMs, req.timeoutMs, existing.timeoutMs)
    ensures Patched(r.mapping.maxRetryAttempts, req.maxRetryAttempts, existing.maxRetryAttempts)
    ensures Patched(r.mapping.retryBackoffMs, req.retryBackoffMs, existing.retryBackoffMs)
    ensures Patched(r.mapping.costPerUnit, req.costPerUnit, existing.costPerUnit)
    ensures Patched(r.mapping.costUnit, req.costUnit, existing.costUnit)
    ensures Patched(r.mapping.healthCheckEndpoint, req.healthCheckEndpoint, existing.healthCheckEndpoint)
    ensures r.mapping.supportedRegions.None? && r.mapping.supportedFormats.None?
    ensures r.mapping.lastHealthCheck.None? && r.mapping.lastHealthStatus.None?
  {
    var m := VendorMapping(
      templateVendorId := existing.templateVendorId,
      masterTemplateId := existing.masterTemplateId,
      templateVersion := existing.templateVersion,
      vendor := existing.vendor,
      vendorTemplateKey := Patch(req.vendorTemplateKey, existing.vendorTemplateKey),
      vendorTemplateName := Patch(req.vendorTemplateName, existing.vendorTemplateName),
      referenceKeyType := Patch(req.referenceKeyType, existing.referenceKeyType),
      consumerId := Patch(req.consumerId, existing.consumerId),
      startDate := Patch(req.startDate, existing.startDate),
      endDate := Patch(req.endDate, existing.endDate),
      vendorMappingVersion := existing.vendorMappingVersion,
      primaryFlag := Patch(req.primaryFlag, existing.primaryFlag),
      activeFlag := Patch(req.activeFlag, existing.activeFlag),
      templateStatus := Patch(req.templateStatus, existing.templateStatus),
      createdBy := existing.createdBy,
      createdTimestamp := existing.createdTimestamp,
      updatedBy := Some(updatedBy),
      updatedTimestamp := Some(now),
      recordStatus := existing.recordStatus,
      vendorType := existing.vendorType,
      priorityOrder := Patch(req.priorityOrder, existing.priorityOrder),
      supportedRegions := None,
      vendorStatus := Patch(req.vendorStatus, existing.vendorStatus),
      rateLimitPerMinute := Patch(req.rateLimitPerMinute, existing.rateLimitPerMinute),
      rateLimitPerDay := Patch(req.rateLimitPerDay, existing.rateLimitPerDay),
      timeoutMs := Patch(req.timeoutMs, existing.timeoutMs),
      maxRetryAttempts := Patch(req.maxRetryAttempts, existing.maxRetryAttempts),
      retryBackoffMs := Patch(req.retryBackoffMs, existing.retryBackoffMs),
      costPerUnit := Patch(req.costPerUnit, existing.costPerUnit),
      costUnit := Patch(req.costUnit, existing.costUnit),
      supportedFormats := None,
      lastHealthCheck := None,
      lastHealthStatus := None,
      healthCheckEndpoint := Patch(req.healthCheckEndpoint, existing.healthCheckEndpoint));
    var rowVersion := if existing.vendorMappingVersion.Some? then existing.vendorMappingVersion.value + 1 else 1;
    VendorRow(m, false, None, Some(rowVersion))
  }

  /** Applying the same mapping patch to its own result gives the same mapping. */
  lemma VendorPatchIdempotent(existing: VendorMapping, req: TemplateVendorUpdateRequest,
                              updatedBy: string, now: Timestamp)
    ensures var once := BuildUpdatedVendorEntity(existing, req, updatedBy, now).mapping;
      BuildUpdatedVendorEntity(once, req, updatedBy, now).mapping == once
  {
  }

  /** A mapping update keeps the mapping under its id and in its slot: its lookup key and routing slot do not move. */
  lemma VendorUpdateKeepsSlot(existing: VendorMapping, req: TemplateVendorUpdateRequest, updatedBy: string,
                              now: Timestamp)
    ensures var r := BuildUpdatedVendorEntity(existing, req, updatedBy, now);
      && VendorRepo.VendorKey(r) == existing.templateVendorId
      && (forall tid, v, vt :: VendorRepo.ForSlot(r, tid, v, vt) <==>
            tid == existing.masterTemplateId && v == existing.templateVersion && existing.vendorType == Some(vt))
  {
  }
}
