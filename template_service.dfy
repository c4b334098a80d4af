/**
  TemplateService: the operations behind the HTTP API. Each one checks first
  (existence, duplicates) and then writes through a DAO; a failed check returns
  a typed error and writes nothing. The clock, the epoch-millisecond clock and
  fresh UUIDs are parameters.
 */
module TemplateServices {
  import opened Wrappers
  import opened Identifiers
  import opened Records
  import opened Sequences
  import opened Pagination
  import opened EntityBuilders
  import TemplateRepo
  import VendorRepo
  import TemplateDaos
  import VendorDaos

  /** ResourceNotFoundException, ConflictException, and a store rejecting a negative LIMIT or OFFSET. */
  datatype ServiceError = NotFound | Conflict | StoreError

  datatype TemplateResponse = TemplateResponse(template: MasterTemplate, vendorMappings: Option<seq<VendorMapping>>)

  datatype TemplatePageResponse = TemplatePageResponse(templates: seq<MasterTemplate>, pagination: PaginationResponse)

  datatype TemplateVendorResponse = TemplateVendorResponse(vendorMapping: VendorMapping,
                                                           templateDetails: Option<MasterTemplate>)

  datatype TemplateVendorPageResponse = TemplateVendorPageResponse(vendorMappings: seq<VendorMapping>,
                                                                   pagination: PaginationResponse)

  class TemplateService {
    const templateDao: TemplateDaos.MasterTemplateDao
    const vendorDao: VendorDaos.TemplateVendorMappingDao

    constructor (templates: TemplateDaos.MasterTemplateDao, vendors: VendorDaos.TemplateVendorMappingDao)
      ensures templateDao == templates && vendorDao == vendors
    {
      templateDao := templates;
      vendorDao := vendors;
    }

    /** createTemplate: Conflict, with nothing written, when a live template of the type exists; else version 1 of a fresh id. */
    method CreateTemplate(req: TemplateCreateRequest, createdBy: string, newId: Uuid, now: Timestamp)
      returns (r: Result<TemplateResponse, ServiceError>)
      requires templateDao.Valid()
      modifies templateDao, templateDao.repo
      ensures templateDao.Valid()
      ensures TemplateRepo.ExistsByTemplateType(old(templateDao.repo.rows), req.templateType) ==>
                r == Failure(Conflict) && templateDao.repo.rows == old(templateDao.repo.rows)
                && templateDao.templateCache == old(templateDao.templateCache)
                && templateDao.templateByIdCache == old(templateDao.templateByIdCache)
      ensures !TemplateRepo.ExistsByTemplateType(old(templateDao.repo.rows), req.templateType) ==>
                var e := BuildTemplateEntity(req, newId, 1, createdBy, now);
                && r == Success(TemplateResponse(e.template, None))
                && templateDao.repo.rows == UpsertBy(old(templateDao.repo.rows), e, TemplateRepo.Key)
                && TemplateDaos.StoreView(templateDao.repo.rows, newId, 1) == Some(e.template)
    {
      var duplicate := templateDao.ExistsByTemplateType(req.templateType);
      if duplicate {
        r := Failure(Conflict);
        return;
      }
      var entity := BuildTemplateEntity(req, newId, 1, createdBy, now);
      TemplateRepo.SaveThenFind(templateDao.repo.rows, entity);
      var dto := templateDao.Save(entity);
      r := Success(TemplateResponse(dto, None));
    }

    /** getTemplateById: every live version, newest first, as one page; NotFound when there is none. */
    method GetTemplateById(id: Uuid) returns (r: Result<TemplatePageResponse, ServiceError>)
      requires templateDao.Valid()
      ensures var all := TemplateRepo.FindAllVersionsByMasterTemplateId(templateDao.repo.rows, id);
        && (all == [] ==> r == Failure(NotFound))
        && (all != [] ==> r == Success(TemplatePageResponse(TemplateDaos.Dtos(all), Of(0, |all|, |all|))))
      ensures r.Failure? <==> forall x :: x in templateDao.repo.rows ==>
                                !(TemplateRepo.Live(x) && x.template.masterTemplateId == id)
      ensures r.Success? ==>
                && r.value.pagination.totalPages == 1 && !r.value.pagination.hasNext
                && forall i, j :: 0 <= i < j < |r.value.templates| ==>
                     r.value.templates[i].templateVersion > r.value.templates[j].templateVersion
    {
      var templates := templateDao.FindAllVersionsById(id);
      ghost var all := TemplateRepo.FindAllVersionsByMasterTemplateId(templateDao.repo.rows, id);
      if templates == [] {
        r := Failure(NotFound);
      } else {
        assert all[0] in all;
        SinglePage(|templates|);
        TemplateRepo.AllVersionsStrictlyDescending(templateDao.repo.rows, id);
        r := Success(TemplatePageResponse(templates, Of(0, |templates|, |templates|)));
      }
    }

    /** getTemplateByIdAndVersion: the store's answer for the key, with the version's live mappings when asked. */
    method GetTemplateByIdAndVersion(id: Uuid, v: int, includeVendors: bool)
      returns (r: Result<TemplateResponse, ServiceError>)
      requires templateDao.Valid() && vendorDao.Valid()
      modifies templateDao
      ensures templateDao.Valid()
      ensures TemplateDaos.StoreView(templateDao.repo.rows, id, v).None? ==> r == Failure(NotFound)
      ensures TemplateDaos.StoreView(templateDao.repo.rows, id, v).Some? ==>
                && r.Success?
                && r.value.template == TemplateDaos.StoreView(templateDao.repo.rows, id, v).value
                && r.value.vendorMappings
                   == if includeVendors
                      then Some(VendorDaos.Mappings(VendorRepo.FindByMasterTemplateIdAndVersion(vendorDao.repo.rows, id, v)))
                      else None
    {
      var found := templateDao.FindByIdAndVersion(id, v);
      if found.None? {
        r := Failure(NotFound);
      } else if includeVendors {
        var vendors := vendorDao.FindByMasterTemplateIdAndVersion(id, v);
        r := Success(TemplateResponse(found.value, Some(vendors)));
      } else {
        r := Success(TemplateResponse(found.value, None));
      }
    }

    /** listTemplates: one page of the filtered list with the filtered count's page metadata. */
    method ListTemplates(lineOfBusiness: Option<string>, templateType: Option<string>, activeFlag: Option<bool>,
                         communicationType: Option<string>, page: int, size: int)
      returns (r: Result<TemplatePageResponse, ServiceError>)
      requires templateDao.Valid()
      ensures r.Failure? <==> size < 0 || page * size < 0
      ensures r.Failure? ==> r.error == StoreError
      ensures r.Success? ==>
                var total := TemplateRepo.CountWithFilters(templateDao.repo.rows, lineOfBusiness, templateType,
                                                           activeFlag, communicationType);
                && r.value.pagination == Of(page, size, total)
                && |r.value.templates| == (if page * size >= total then 0 else Min(size, total - page * size))
                && (size > 0 ==> (r.value.pagination.hasNext <==> (page + 1) * size < total))
      ensures r.Success? ==> TemplateDaos.IsFilteredPage(templateDao.repo.rows, lineOfBusiness, templateType, activeFlag,
                                                         communicationType, size, page * size, r.value.templates)
    {
      var total := templateDao.CountWithFilters(lineOfBusiness, templateType, activeFlag, communicationType);
      var templates := templateDao.FindWithFilters(lineOfBusiness, templateType, activeFlag, communicationType,
                                                   page, size);
      if templates.None? {
        return Failure(StoreError);
      }
      assert total == TemplateRepo.CountWithFilters(templateDao.repo.rows, lineOfBusiness, templateType, activeFlag,
                                                  communicationType);
      var pagination := Of(page, size, total);
      assert size > 0 ==> (pagination.hasNext <==> (page + 1) * size < total) by {
        if size > 0 {
          HasNextIffElementsBeyondPage(page, size, total);
        }
      }
      r := Success(TemplatePageResponse(templates.value, pagination));
      assert r.value.templates == templates.value;
    }

    /**
      updateTemplate: NotFound, with nothing written, when the key has no live
      row. Otherwise the patched record is written either as the next version
      (the old version stays as it was) or over the same key.
     */
    method UpdateTemplate(id: Uuid, v: int, req: TemplateUpdateRequest, updatedBy: string,
                          createNewVersion: bool, now: Timestamp)
      returns (r: Result<TemplateResponse, ServiceError>)
      requires templateDao.Valid()
      modifies templateDao, templateDao.repo
      ensures templateDao.Valid()
      ensures TemplateDaos.StoreView(old(templateDao.repo.rows), id, v).None? ==>
                r == Failure(NotFound) && templateDao.repo.rows == old(templateDao.repo.rows)
                && templateDao.templateCache == old(templateDao.templateCache)
                && templateDao.templateByIdCache == old(templateDao.templateByIdCache)
      ensures TemplateDaos.StoreView(old(templateDao.repo.rows), id, v).Some? && createNewVersion ==>
                var existing := TemplateDaos.StoreView(old(templateDao.repo.rows), id, v).value;
                var next := TemplateRepo.GetNextVersionNumber(old(templateDao.repo.rows), id);
                var e := BuildUpdatedEntity(existing, req, next, updatedBy, now);
                && next > v
                && r == Success(TemplateResponse(e.template, None))
                && templateDao.repo.rows == UpsertBy(old(templateDao.repo.rows), e, TemplateRepo.Key)
                && TemplateDaos.StoreView(templateDao.repo.rows, id, next) == Some(e.template)
                && TemplateDaos.StoreView(templateDao.repo.rows, id, v) == Some(existing)
      ensures TemplateDaos.StoreView(old(templateDao.repo.rows), id, v).Some? && !createNewVersion ==>
                var existing := TemplateDaos.StoreView(old(templateDao.repo.rows), id, v).value;
                var e := BuildUpdatedEntity(existing, req, v, updatedBy, now);
                && r == Success(TemplateResponse(e.template, None))
                && templateDao.repo.rows == UpsertBy(old(templateDao.repo.rows), e, TemplateRepo.Key)
                && TemplateDaos.StoreView(templateDao.repo.rows, id, v) == Some(e.template)
    {
      var found := templateDao.FindByIdAndVersion(id, v);
      if found.None? {
        r := Failure(NotFound);
        return;
      }
      var response;
      if createNewVersion {
        response := SaveAsNextVersion(id, v, found.value, req, updatedBy, now);
      } else {
        response := SaveInPlace(id, v, found.value, req, updatedBy, now);
      }
      r := Success(response);
    }

    /** The createNewVersion branch of updateTemplate: the patched record goes to the next free version. */
    method SaveAsNextVersion(id: Uuid, v: int, existing: MasterTemplate, req: TemplateUpdateRequest,
                             updatedBy: string, now: Timestamp)
      returns (r: TemplateResponse)
      requires templateDao.Valid()
      requires TemplateDaos.StoreView(templateDao.repo.rows, id, v) == Some(existing)
      modifies templateDao, templateDao.repo
      ensures templateDao.Valid()
      ensures var next := TemplateRepo.GetNextVersionNumber(old(templateDao.repo.rows), id);
              var e := BuildUpdatedEntity(existing, req, next, updatedBy, now);
              && next > v
              && r == TemplateResponse(e.template, None)
              && templateDao.repo.rows == UpsertBy(old(templateDao.repo.rows), e, TemplateRepo.Key)
              && TemplateDaos.StoreView(templateDao.repo.rows, id, next) == Some(e.template)
              && TemplateDaos.StoreView(templateDao.repo.rows, id, v) == Some(existing)
    {
      ghost var rows0 := templateDao.repo.rows;
      var next := templateDao.GetNextVersionNumber(id);
      var e := BuildUpdatedEntity(existing, req, next, updatedBy, now);
      var row := TemplateRepo.FindByMasterTemplateIdAndVersion(rows0, id, v).value;
      assert row in rows0 && row.template.masterTemplateId == id;
      TemplateRepo.SaveThenFind(rows0, e);
      TemplateRepo.SaveKeepsOtherKeys(rows0, e, id, v);
      var dto := templateDao.Save(e);
      r := TemplateResponse(dto, None);
    }

    /** The in-place branch of updateTemplate: the patched record overwrites the same (id, version). */
    method SaveInPlace(id: Uuid, v: int, existing: MasterTemplate, req: TemplateUpdateRequest,
                       updatedBy: string, now: Timestamp)
      returns (r: TemplateResponse)
      requires templateDao.Valid()
      requires TemplateDaos.StoreView(templateDao.repo.rows, id, v) == Some(existing)
      modifies templateDao, templateDao.repo
      ensures templateDao.Valid()
      ensures var e := BuildUpdatedEntity(existing, req, v, updatedBy, now);
              && r == TemplateResponse(e.template, None)
              && templateDao.repo.rows == UpsertBy(old(templateDao.repo.rows), e, TemplateRepo.Key)
              && TemplateDaos.StoreView(templateDao.repo.rows, id, v) == Some(e.template)
    {
      var e := BuildUpdatedEntity(existing, req, v, updatedBy, now);
      e := e.(template := e.template.(masterTemplateId := id));
      TemplateRepo.SaveThenFind(templateDao.repo.rows, e);
      var dto := templateDao.Update(e);
      r := TemplateResponse(dto, None);
    }

    /** deleteTemplate: NotFound, with nothing written, when the key has no live row; otherwise the key is archived and evicted. */
    method DeleteTemplate(id: Uuid, v: int, deletedBy: string, now: Timestamp) returns (r: Result<(), ServiceError>)
      requires templateDao.Valid()
      modifies templateDao, templateDao.repo
      ensures templateDao.Valid()
      ensures TemplateDaos.StoreView(old(templateDao.repo.rows), id, v).None? ==>
                r == Failure(NotFound) && templateDao.repo.rows == old(templateDao.repo.rows)
                && templateDao.templateCache == old(templateDao.templateCache)
                && templateDao.templateByIdCache == old(templateDao.templateByIdCache)
      ensures TemplateDaos.StoreView(old(templateDao.repo.rows), id, v).Some? ==>
                && r == Success(())
                && templateDao.repo.rows
                   == UpdateWhere(old(templateDao.repo.rows), TemplateRepo.HasKey(id, v), TemplateRepo.Archived(deletedBy, now))
                && TemplateDaos.StoreView(templateDao.repo.rows, id, v).None?
                && TemplateDaos.BuildCacheKey(id, v) !in templateDao.templateCache
                && id !in templateDao.templateByIdCache
    {
      var found := templateDao.FindByIdAndVersion(id, v);
      if found.None? {
        r := Failure(NotFound);
        return;
      }
      assert TemplateDaos.StoreView(templateDao.repo.rows, id, v).Some?;
      ghost var byId := templateDao.templateByIdCache;
      var count := templateDao.ArchiveTemplate(id, v, deletedBy, now);
      assert count > 0;
      assert templateDao.templateByIdCache == byId - {id};
      r := Success(());
    }

    /**
      createVendorMapping: NotFound when the parent (id, version) has no live
      row, checked first; Conflict when a live mapping of the same slot and
      vendor exists; otherwise a fresh mapping is saved. Errors write nothing.
     */
    method CreateVendorMapping(req: TemplateVendorCreateRequest, createdBy: string, newVendorId: Uuid,
                               nowMillis: EpochMillis, now: Timestamp)
      returns (r: Result<TemplateVendorResponse, ServiceError>)
      requires templateDao.Valid() && vendorDao.Valid()
      modifies templateDao, vendorDao, vendorDao.repo
      ensures templateDao.Valid() && vendorDao.Valid()
      ensures TemplateDaos.StoreView(templateDao.repo.rows, req.masterTemplateId, req.templateVersion).None? ==>
                r == Failure(NotFound) && vendorDao.repo.rows == old(vendorDao.repo.rows)
                && vendorDao.vendorCache == old(vendorDao.vendorCache)
                && vendorDao.vendorListCache == old(vendorDao.vendorListCache)
      ensures TemplateDaos.StoreView(templateDao.repo.rows, req.masterTemplateId, req.templateVersion).Some?
              && VendorRepo.ExistsDuplicateMapping(old(vendorDao.repo.rows), req.masterTemplateId, req.templateVersion,
                                                   req.vendor, req.vendorType) ==>
                r == Failure(Conflict) && vendorDao.repo.rows == old(vendorDao.repo.rows)
                && vendorDao.vendorCache == old(vendorDao.vendorCache)
                && vendorDao.vendorListCache == old(vendorDao.vendorListCache)
      ensures TemplateDaos.StoreView(templateDao.repo.rows, req.masterTemplateId, req.templateVersion).Some?
              && !VendorRepo.ExistsDuplicateMapping(old(vendorDao.repo.rows), req.masterTemplateId, req.templateVersion,
                                                    req.vendor, req.vendorType) ==>
                var parent := TemplateDaos.StoreView(templateDao.repo.rows, req.masterTemplateId, req.templateVersion).value;
                var e := BuildVendorEntity(req, createdBy, newVendorId, nowMillis, now);
                && r == Success(TemplateVendorResponse(e.mapping, Some(parent)))
                && vendorDao.repo.rows == UpsertBy(old(vendorDao.repo.rows), e, VendorRepo.VendorKey)
                && VendorDaos.StoreView(vendorDao.repo.rows, newVendorId) == Some(e.mapping)
    {
      var template := templateDao.FindByIdAndVersion(req.masterTemplateId, req.templateVersion);
      if template.None? {
        r := Failure(NotFound);
        return;
      }
      r := SaveUnlessDuplicate(req, template.value, createdBy, newVendorId, nowMillis, now);
    }

    /** The part of createVendorMapping after the parent is found: Conflict on a duplicate, else save. */
    method SaveUnlessDuplicate(req: TemplateVendorCreateRequest, parent: MasterTemplate, createdBy: string,
                               newVendorId: Uuid, nowMillis: EpochMillis, now: Timestamp)
      returns (r: Result<TemplateVendorResponse, ServiceError>)
      requires vendorDao.Valid()
      modifies vendorDao, vendorDao.repo
      ensures vendorDao.Valid()
      ensures VendorRepo.ExistsDuplicateMapping(old(vendorDao.repo.rows), req.masterTemplateId, req.templateVersion,
                                                req.vendor, req.vendorType) ==>
                r == Failure(Conflict) && vendorDao.repo.rows == old(vendorDao.repo.rows)
                && vendorDao.vendorCache == old(vendorDao.vendorCache)
                && vendorDao.vendorListCache == old(vendorDao.vendorListCache)
      ensures !VendorRepo.ExistsDuplicateMapping(old(vendorDao.repo.rows), req.masterTemplateId, req.templateVersion,
                                                 req.vendor, req.vendorType) ==>
                var e := BuildVendorEntity(req, createdBy, newVendorId, nowMillis, now);
                && r == Success(TemplateVendorResponse(e.mapping, Some(parent)))
                && vendorDao.repo.rows == UpsertBy(old(vendorDao.repo.rows), e, VendorRepo.VendorKey)
                && VendorDaos.StoreView(vendorDao.repo.rows, newVendorId) == Some(e.mapping)
    {
      var duplicate := vendorDao.ExistsDuplicateMapping(req.masterTemplateId, req.templateVersion, req.vendor, req.vendorType);
      if duplicate {
        r := Failure(Conflict);
        return;
      }
      var entity := BuildVendorEntity(req, createdBy, newVendorId, nowMillis, now);
      VendorRepo.SaveThenFind(vendorDao.repo.rows, entity);
      var vendor := vendorDao.Save(entity);
      r := Success(TemplateVendorResponse(vendor, Some(parent)));
    }

    /** getVendorMappingById: the store's answer for the id, with its template version when asked and present. */
    method GetVendorMappingById(id: Uuid, includeTemplateDetails: bool)
      returns (r: Result<TemplateVendorResponse, ServiceError>)
      requires templateDao.Valid() && vendorDao.Valid()
      modifies templateDao, vendorDao
      ensures templateDao.Valid() && vendorDao.Valid()
      ensures VendorDaos.StoreView(vendorDao.repo.rows, id).None? ==> r == Failure(NotFound)
      ensures VendorDaos.StoreView(vendorDao.repo.rows, id).Some? ==>
                var m := VendorDaos.StoreView(vendorDao.repo.rows, id).value;
                r == Success(TemplateVendorResponse(m,
                       if includeTemplateDetails
                       then TemplateDaos.StoreView(templateDao.repo.rows, m.masterTemplateId, m.templateVersion)
                       else None))
    {
      var vendor := vendorDao.FindById(id);
      if vendor.None? {
        r := Failure(NotFound);
      } else if includeTemplateDetails {
        var response := WithTemplateDetails(vendor.value);
        r := Success(response);
      } else {
        r := Success(TemplateVendorResponse(vendor.value, None));
      }
    }

    /** The includeTemplateDetails branch of getVendorMappingById: the mapping with its template version, if found. */
    method WithTemplateDetails(m: VendorMapping) returns (r: TemplateVendorResponse)
      requires templateDao.Valid()
      modifies templateDao
      ensures templateDao.Valid()
      ensures r == TemplateVendorResponse(m, TemplateDaos.StoreView(templateDao.repo.rows, m.masterTemplateId, m.templateVersion))
    {
      var template := templateDao.FindByIdAndVersion(m.masterTemplateId, m.templateVersion);
      r := TemplateVendorResponse(m, template);
    }

    /** listVendorMappings: one page of the filtered list with the filtered count's page metadata. */
    method ListVendorMappings(templateId: Option<Uuid>, vendorType: Option<string>, vendor: Option<string>,
                              activeFlag: Option<bool>, page: int, size: int)
      returns (r: Result<TemplateVendorPageResponse, ServiceError>)
      requires vendorDao.Valid()
      ensures r.Failure? <==> size < 0 || page * size < 0
      ensures r.Failure? ==> r.error == StoreError
      ensures r.Success? ==>
                var total := VendorRepo.CountWithFilters(vendorDao.repo.rows, templateId, vendorType, vendor, activeFlag);
                && r.value.pagination == Of(page, size, total)
                && |r.value.vendorMappings| == (if page * size >= total then 0 else Min(size, total - page * size))
                && (size > 0 ==> (r.value.pagination.hasNext <==> (page + 1) * size < total))
      ensures r.Success? ==> VendorDaos.IsFilteredPage(vendorDao.repo.rows, templateId, vendorType, vendor, activeFlag,
                                                       size, page * size, r.value.vendorMappings)
    {
      var total := vendorDao.CountWithFilters(templateId, vendorType, vendor, activeFlag);
      var vendors := vendorDao.FindWithFilters(templateId, vendorType, vendor, activeFlag, page, size);
      if vendors.None? {
        return Failure(StoreError);
      }
      assert total == VendorRepo.CountWithFilters(vendorDao.repo.rows, templateId, vendorType, vendor, activeFlag);
      var pagination := Of(page, size, total);
      assert size > 0 ==> (pagination.hasNext <==> (page + 1) * size < total) by {
        if size > 0 {
          HasNextIffElementsBeyondPage(page, size, total);
        }
      }
      r := Success(TemplateVendorPageResponse(vendors.value, pagination));
      assert r.value.vendorMappings == vendors.value;
    }

    /** updateVendorMapping: NotFound, with nothing written, for an unknown id; otherwise the patched mapping replaces it. */
    method UpdateVendorMapping(id: Uuid, req: TemplateVendorUpdateRequest, updatedBy: string, now: Timestamp)
      returns (r: Result<TemplateVendorResponse, ServiceError>)
      requires vendorDao.Valid()
      modifies vendorDao, vendorDao.repo
      ensures vendorDao.Valid()
      ensures VendorDaos.StoreView(old(vendorDao.repo.rows), id).None? ==>
                r == Failure(NotFound) && vendorDao.repo.rows == old(vendorDao.repo.rows)
                && vendorDao.vendorCache == old(vendorDao.vendorCache)
                && vendorDao.vendorListCache == old(vendorDao.vendorListCache)
      ensures VendorDaos.StoreView(old(vendorDao.repo.rows), id).Some? ==>
                var e := BuildUpdatedVendorEntity(VendorDaos.StoreView(old(vendorDao.repo.rows), id).value, req,
                                                  updatedBy, now);
                && r == Success(TemplateVendorResponse(e.mapping, None))
                && vendorDao.repo.rows == UpsertBy(old(vendorDao.repo.rows), e, VendorRepo.VendorKey)
                && VendorDaos.StoreView(vendorDao.repo.rows, id) == Some(e.mapping)
    {
      var existing := vendorDao.FindById(id);
      if existing.None? {
        r := Failure(NotFound);
        return;
      }
      var entity := BuildUpdatedVendorEntity(existing.value, req, updatedBy, now);
      VendorRepo.SaveThenFind(vendorDao.repo.rows, entity);
      var vendor := vendorDao.Update(entity);
      r := Success(TemplateVendorResponse(vendor, None));
    }

    /** deleteVendorMapping: NotFound, with nothing written, for an unknown id; otherwise the id is archived and evicted. */
    method DeleteVendorMapping(id: Uuid, deletedBy: string, now: Timestamp) returns (r: Result<(), ServiceError>)
      requires vendorDao.Valid()
      modifies vendorDao, vendorDao.repo
      ensures vendorDao.Valid()
      ensures VendorDaos.StoreView(old(vendorDao.repo.rows), id).None? ==>
                r == Failure(NotFound) && vendorDao.repo.rows == old(vendorDao.repo.rows)
                && vendorDao.vendorCache == old(vendorDao.vendorCache)
                && vendorDao.vendorListCache == old(vendorDao.vendorListCache)
      ensures VendorDaos.StoreView(old(vendorDao.repo.rows), id).Some? ==>
                && r == Success(())
                && vendorDao.repo.rows
                   == UpdateWhere(old(vendorDao.repo.rows), VendorRepo.HasId(id), VendorRepo.ArchivedBy(deletedBy, now))
                && VendorDaos.StoreView(vendorDao.repo.rows, id).None?
                && id !in vendorDao.vendorCache
    {
      var vendor := vendorDao.FindById(id);
      if vendor.None? {
        r := Failure(NotFound);
        return;
      }
      assert VendorRepo.FindByVendorId(vendorDao.repo.rows, id).Some?;
      var count := vendorDao.ArchiveVendorMapping(id, deletedBy, now);
      r := Success(());
    }

    /** getVendorsForRouting: the routing candidates in priority order, as a single page (no pages when empty). */
    method GetVendorsForRouting(templateId: Uuid, v: int, vendorType: string) returns (r: TemplateVendorPageResponse)
      requires vendorDao.Valid()
      ensures r.vendorMappings
              == VendorDaos.Mappings(VendorRepo.FindActiveVendorsForRouting(vendorDao.repo.rows, templateId, v, vendorType))
      ensures r.pagination == Of(0, |r.vendorMappings|, |r.vendorMappings|)
      ensures r.vendorMappings == [] ==> r.pagination.totalPages == 0
      ensures r.vendorMappings != [] ==> r.pagination.totalPages == 1 && !r.pagination.hasNext
      ensures forall m :: m in r.vendorMappings ==> m.activeFlag == Some(true) && VendorRepo.Routable(m)
    {
      var vendors := vendorDao.FindActiveVendorsForRouting(templateId, v, vendorType);
      ghost var rows := VendorRepo.FindActiveVendorsForRouting(vendorDao.repo.rows, templateId, v, vendorType);
      forall m | m in vendors ensures m.activeFlag == Some(true) && VendorRepo.Routable(m) {
        var i :| 0 <= i < |vendors| && vendors[i] == m;
        assert rows[i] in rows;
      }
      if vendors == [] {
        EmptyHasNoPages(0, 0);
      } else {
        SinglePage(|vendors|);
      }
      r := TemplateVendorPageResponse(vendors, Of(0, |vendors|, |vendors|));
    }
  }
}
