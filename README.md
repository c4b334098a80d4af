# Template management service: a verified model

This project models the core of a template management service. The service
stores versioned document templates (table `master_template_definition`) and
the vendor mappings that route each template version to a generation, print
or e-mail vendor (table `template_vendor_mapping`). The model covers four
layers:

- **The record store.** The rows of each table are a sequence of records. Each
  SELECT of the two repositories is a pure selection over those rows: it filters
  out archived rows, ignores a filter that is null, widens a line-of-business
  filter to 'ENTERPRISE', checks date windows, orders by priority, version or
  creation time, and pages with LIMIT/OFFSET. The archive and health-status
  UPDATEs and the inherited `save` change the rows held by a repository object.
  They return the number of affected rows.
- **The caching DAOs.** `MasterTemplateDao` keeps two caches: one keyed by
  `"id:version"` and one keyed by template id. `TemplateVendorMappingDao` keeps
  a cache keyed by mapping id and a list cache keyed by strings.
  - Each DAO is a class whose cache maps its methods reassign.
  - Its `Valid()` states the coherence invariant: every cached record is filed
    under its own key and equals what the store returns for that key.
  - Every mutating method keeps that invariant and states the new cache
    contents exactly.
- **The service.** `TemplateService` checks first and then writes:
  - a duplicate template type is a Conflict;
  - a missing template or mapping is NotFound;
  - creating a mapping checks the parent template before it checks for
    duplicates;
  - an update either forks the next version or overwrites in place.

  An error writes nothing. The four `build*` helpers are pure record
  constructors. They apply create defaults, or they merge a patch field by field
  ("request value if non-null, else existing").
- **Pagination.** `PaginationResponse.of` computes ceiling division and the
  has-next and has-previous flags.

The clock (`LocalDateTime.now()`), the epoch-millisecond clock
(`System.currentTimeMillis()`) and fresh UUIDs are parameters of the methods
that use them.

Files:
- `wrappers.dfy`: Option and Result.
- `identifiers.dfy`: UUID text and decimal integer text.
- `sequences.dfy`: WHERE, ORDER BY, LIMIT/OFFSET, upsert and UPDATE over sequences.
- `records.dfy`: the rows, DTOs and request bodies.
- `pagination.dfy`: `PaginationResponse.of`.
- `template_repository.dfy` and `vendor_repository.dfy`: the two repositories.
- `template_dao.dfy` and `vendor_dao.dfy`: the two DAOs.
- `service_builders.dfy`: the four `build*` helpers.
- `template_service.dfy`: the service operations.

Where the service's design description and the code disagree, the model
follows the code:
- **Routing order.** Routing candidates are ordered by `priority_order` only.
  There is no secondary tie-break on the vendor id, and the order of tied rows
  is left unspecified.
- **Mapping updates.** `vendorMappingVersion` is copied unchanged by an update.
  It is not incremented. Only the row's `versionNumber` becomes
  `vendorMappingVersion + 1`.
- **Archive count.** The archive UPDATEs have no `archive_indicator = false`
  condition. They re-archive rows that are already archived and count them.
- **Mapping creation.** Creating a mapping stores `supportedRegions`,
  `supportedFormats` and the last-health fields as unset, whatever the request
  held.
- **Mapping patches.** An update also leaves those fields unset. They do not
  survive the update.
- **JSON columns on update.** `buildUpdatedEntity` and `buildUpdatedVendorEntity`
  (src/main/java/com/templatemanagement/service/TemplateService.java:338-375 and
  414-452) copy none of the JSON configuration columns, so an update clears
  them. Those columns are outside the records, so the model does not show this.

## Model

| member | source | states |
|---|---|---|
| Pagination.CeilDiv | src/main/java/com/templatemanagement/dto/response/PaginationResponse.java:27 | the page count is the least k with k * size >= totalElements: (k - 1) * size < total <= k * size |
| Pagination.Of | src/main/java/com/templatemanagement/dto/response/PaginationResponse.java:26-36 | page, size and totalElements are echoed; totalPages is 0 when size <= 0 and otherwise the least number of pages covering totalElements; hasNext iff page < totalPages - 1; hasPrevious iff page > 0 |
| Pagination.HasNextIffElementsBeyondPage | src/main/java/com/templatemanagement/dto/response/PaginationResponse.java:27-33 | with a positive size, hasNext holds exactly when elements lie beyond the current page: (page + 1) * size < totalElements |
| Pagination.EmptyHasNoPages | src/main/java/com/templatemanagement/dto/response/PaginationResponse.java:27-33 | zero elements give zero pages and, from page 0 on, no next page |
| Pagination.SinglePage | src/main/java/com/templatemanagement/dto/response/PaginationResponse.java:27-34 | n > 0 elements shown as one page of size n: one page, no next, no previous |
| TemplateRepo.FindByMasterTemplateIdAndVersion | src/main/java/com/templatemanagement/repository/MasterTemplateRepository.java:22-29 | the point lookup answers only a stored non-archived row with that id and version, and answers nothing exactly when no such row exists |
| TemplateRepo.FindAllVersionsByMasterTemplateId | src/main/java/com/templatemanagement/repository/MasterTemplateRepository.java:34-38 | exactly the non-archived rows of the id, each as often as stored, in non-increasing version order |
| TemplateRepo.FindActiveTemplates | src/main/java/com/templatemanagement/repository/MasterTemplateRepository.java:43-48 | exactly the active, non-archived rows whose date window (null or start <= d, null or end >= d) contains d, with their multiplicities |
| TemplateRepo.FindByTemplateType | src/main/java/com/templatemanagement/repository/MasterTemplateRepository.java:53-56 | exactly the non-archived rows of the type, with their multiplicities |
| TemplateRepo.FindLatestActiveTemplateByType | src/main/java/com/templatemanagement/repository/MasterTemplateRepository.java:61-72 | an active, in-window, non-archived row of the type whose version no other such row exceeds; nothing exactly when there is no such row |
| TemplateRepo.FindByTemplateTypeAndVersion | src/main/java/com/templatemanagement/repository/MasterTemplateRepository.java:77-84 | only a stored non-archived row of that type and version, and nothing exactly when none exists |
| TemplateRepo.FindActiveTemplatesByLineOfBusiness | src/main/java/com/templatemanagement/repository/MasterTemplateRepository.java:89-98 | exactly the active, in-window, non-archived rows of the line of business or of 'ENTERPRISE', each as often as it is stored |
| TemplateRepo.CountWithFilters | src/main/java/com/templatemanagement/repository/MasterTemplateRepository.java:123-134 | COUNT(*): the count is the number of rows satisfying the shared filter predicate (non-archived, null filters ignored, 'ENTERPRISE' widening), each stored row counted as often as it occurs; it is zero exactly when no row satisfies it |
| TemplateRepo.FindWithFilters | src/main/java/com/templatemanagement/repository/MasterTemplateRepository.java:103-118 | a negative LIMIT or OFFSET is rejected; otherwise the result is the window [offset, offset + limit) of some created_timestamp DESC ordering (NULLs first) of exactly the rows satisfying the same predicate as the count, so it is a sub-multiset of them (no row appears more often than it is stored), newest created first, and exactly min(limit, count - offset) of them, or none past the count |
| TemplateRepo.MaxVersion | src/main/java/com/templatemanagement/repository/MasterTemplateRepository.java:139-141 | MAX(template_version) over every row of the id, archived ones included: an attained version no row of the id exceeds, or none exactly when the id has no row |
| TemplateRepo.GetNextVersionNumber | src/main/java/com/templatemanagement/repository/MasterTemplateRepository.java:139-142 | exceeds the version of every row of the id, archived or not, and is 1 when there is none or else one more than a stored version |
| TemplateRepo.ExistsByTemplateType | src/main/java/com/templatemanagement/repository/MasterTemplateRepository.java:163-166 | true iff some non-archived row, of any version, has the type |
| TemplateRepo.PointLookupIsTheKeyedRow | src/main/java/com/templatemanagement/repository/MasterTemplateRepository.java:22-29 | with unique keys, the point lookup of a live row's own key returns that row |
| TemplateRepo.AllVersionsStrictlyDescending | src/main/java/com/templatemanagement/repository/MasterTemplateRepository.java:34-38 | with unique keys, all-versions lists strictly decreasing versions |
| TemplateRepo.SiblingVersionsDiffer | src/main/java/com/templatemanagement/repository/MasterTemplateRepository.java:17 | under the primary key (id, version), two different rows of one id have different versions |
| TemplateRepo.ListAgreesWithCount | src/main/java/com/templatemanagement/repository/MasterTemplateRepository.java:103-134 | for page * size below the count the window holds between 1 and size rows; at or past the count it is empty |
| TemplateRepo.NextVersionIsFresh | src/main/java/com/templatemanagement/repository/MasterTemplateRepository.java:139-142 | the next version number is the key of no row, so an archived version number is never reused |
| TemplateRepo.SaveThenFind | src/main/java/com/templatemanagement/repository/MasterTemplateRepository.java:17-29 | after saving a non-archived row, the point lookup of its key returns it |
| TemplateRepo.SaveKeepsOtherKeys | src/main/java/com/templatemanagement/repository/MasterTemplateRepository.java:17-29 | saving a row leaves the point lookup of every other key unchanged |
| TemplateRepo.ArchiveThenNotFound | src/main/java/com/templatemanagement/repository/MasterTemplateRepository.java:147-158 | after the archive UPDATE the point lookup of the key finds nothing |
| TemplateRepo.ArchiveKeepsOtherKeys | src/main/java/com/templatemanagement/repository/MasterTemplateRepository.java:147-158 | the archive UPDATE leaves the point lookup of every other key unchanged |
| TemplateRepo.ArchiveCountAtMostOne | src/main/java/com/templatemanagement/repository/MasterTemplateRepository.java:147-158 | with unique keys the archive affects at most one row |
| TemplateRepo.MasterTemplateRepository.Save | src/main/java/com/templatemanagement/repository/MasterTemplateRepository.java:17 | save is an upsert keyed by (id, version) that keeps keys unique and returns the row |
| TemplateRepo.MasterTemplateRepository.ArchiveTemplateVersion | src/main/java/com/templatemanagement/repository/MasterTemplateRepository.java:147-158 | every row of the key, archived or not, gets the archive flag, time and updater; no other row changes; the result is the number of such rows, and 0 means nothing changed |
| VendorRepo.FindByVendorId | src/main/java/com/templatemanagement/repository/TemplateVendorMappingRepository.java:21-24 | only a stored non-archived row with the id, and nothing exactly when none exists |
| VendorRepo.FindByMasterTemplateId | src/main/java/com/templatemanagement/repository/TemplateVendorMappingRepository.java:29-33 | exactly the non-archived mappings of the template, with their multiplicities, by ascending priority (NULLs last) |
| VendorRepo.FindByMasterTemplateIdAndVersion | src/main/java/com/templatemanagement/repository/TemplateVendorMappingRepository.java:38-46 | exactly the non-archived mappings of the template version, with their multiplicities, by ascending priority |
| VendorRepo.FindByMasterTemplateIdAndVendorType | src/main/java/com/templatemanagement/repository/TemplateVendorMappingRepository.java:51-59 | exactly the non-archived mappings of the template and vendor type, with their multiplicities, by ascending priority |
| VendorRepo.FindPrimaryVendorMapping | src/main/java/com/templatemanagement/repository/TemplateVendorMappingRepository.java:64-75 | only a stored row of the slot with primary and active flags true and not archived; nothing exactly when none exists; which one among several is left open |
| VendorRepo.FindActiveVendorsForRouting | src/main/java/com/templatemanagement/repository/TemplateVendorMappingRepository.java:80-92 | exactly the active, non-archived rows of the slot whose status is null, ACTIVE or DEGRADED, with their multiplicities, in non-decreasing priority with no tie-break promised |
| VendorRepo.CountWithFilters | src/main/java/com/templatemanagement/repository/TemplateVendorMappingRepository.java:117-128 | COUNT(*): the number of rows satisfying the shared filter predicate, and zero exactly when no row satisfies it |
| VendorRepo.FindWithFilters | src/main/java/com/templatemanagement/repository/TemplateVendorMappingRepository.java:97-112 | a negative LIMIT or OFFSET is rejected; otherwise the result is the window [offset, offset + limit) of some created_timestamp DESC ordering (NULLs first) of exactly the rows satisfying the count's predicate, so it is a sub-multiset of them (no row appears more often than it is stored), newest created first, exactly min(limit, count - offset) of them |
| VendorRepo.ExistsDuplicateMapping | src/main/java/com/templatemanagement/repository/TemplateVendorMappingRepository.java:159-170 | true iff a non-archived row has the same template, version, vendor and vendor type |
| VendorRepo.SaveThenFind | src/main/java/com/templatemanagement/repository/TemplateVendorMappingRepository.java:21-24 | after saving a non-archived row, the lookup of its id returns it |
| VendorRepo.SaveKeepsOtherIds | src/main/java/com/templatemanagement/repository/TemplateVendorMappingRepository.java:21-24 | saving a row leaves the lookup of every other id unchanged |
| VendorRepo.ArchiveThenNotFound | src/main/java/com/templatemanagement/repository/TemplateVendorMappingRepository.java:133-139 | after the archive UPDATE the lookup of the id finds nothing |
| VendorRepo.ArchiveKeepsOtherIds | src/main/java/com/templatemanagement/repository/TemplateVendorMappingRepository.java:133-139 | the archive UPDATE leaves the lookup of every other id unchanged |
| VendorRepo.HealthUpdateKeepsOtherIds | src/main/java/com/templatemanagement/repository/TemplateVendorMappingRepository.java:144-154 | the health UPDATE leaves the lookup of every other id unchanged |
| VendorRepo.HealthUpdateFrame | src/main/java/com/templatemanagement/repository/TemplateVendorMappingRepository.java:144-154 | the health UPDATE changes only vendor_status, last_health_check, last_health_status and updated_timestamp, only in rows of the id, and never vendor_mapping_version |
| VendorRepo.RoutingExcludesUnavailable | src/main/java/com/templatemanagement/repository/TemplateVendorMappingRepository.java:80-92 | routing never offers an inactive, archived, INACTIVE or SUSPENDED mapping |
| VendorRepo.RoutingUnprioritisedLast | src/main/java/com/templatemanagement/repository/TemplateVendorMappingRepository.java:88-90 | in routing order a mapping without a priority never precedes one with a priority |
| VendorRepo.TemplateVendorMappingRepository.Save | src/main/java/com/templatemanagement/repository/TemplateVendorMappingRepository.java:17 | save is an upsert keyed by the mapping id that keeps ids unique and returns the row |
| VendorRepo.TemplateVendorMappingRepository.ArchiveVendorMapping | src/main/java/com/templatemanagement/repository/TemplateVendorMappingRepository.java:133-139 | every row of the id, archived or not, is archived; no other row changes; the result is their number, and 0 means nothing changed |
| VendorRepo.TemplateVendorMappingRepository.UpdateVendorStatus | src/main/java/com/templatemanagement/repository/TemplateVendorMappingRepository.java:144-154 | every row of the id gets the new health columns; no other row changes; the result is their number, and 0 means nothing changed |
| TemplateDaos.BuildCacheKey | src/main/java/com/templatemanagement/dao/MasterTemplateDao.java:219-221 | the key is the 36-character UUID text, a ':', then text that reads back as the version |
| TemplateDaos.CacheKeyInjective | src/main/java/com/templatemanagement/dao/MasterTemplateDao.java:219-221 | two (id, version) pairs have the same key iff they are equal |
| TemplateDaos.ToDto | src/main/java/com/templatemanagement/dao/MasterTemplateDao.java:223-261 | the DTO carries the row's (id, version) key, and together with the archive and row-version columns it rebuilds the modelled row: every business field the model keeps is copied (the JSON columns, `templateContent` and the legacy `templateTypeOld`/`documentChannelOld` columns are not part of the row) |
| TemplateDaos.ToEntity | src/main/java/com/templatemanagement/dao/MasterTemplateDao.java:278-317 | the entity is not archived and keeps the key; a present creation time is kept and a missing one becomes now; the update time is now; nothing else changes |
| TemplateDaos.ToEntityRoundTrip | src/main/java/com/templatemanagement/dao/MasterTemplateDao.java:223-317 | toDto after toEntity gives back a DTO whose timestamps already had those values |
| TemplateDaos.StoreView | src/main/java/com/templatemanagement/dao/MasterTemplateDao.java:67-68 | what the store answers for a key, as a DTO: present iff a live row of the key exists, and then carrying that key |
| TemplateDaos.EvictionKeepsCoherence | src/main/java/com/templatemanagement/dao/MasterTemplateDao.java:188-202 | removing any entries from either cache keeps both coherent with the store |
| TemplateDaos.HitIsStoreView | src/main/java/com/templatemanagement/dao/MasterTemplateDao.java:61-65 | under coherence a cache hit equals the store's answer for the key |
| TemplateDaos.SaveKeepsCoherence | src/main/java/com/templatemanagement/dao/MasterTemplateDao.java:124-133 | saving a live row and putting its DTO under "id:version" and under its id keeps both caches coherent |
| TemplateDaos.SaveKeepsKeyCache | src/main/java/com/templatemanagement/dao/MasterTemplateDao.java:129-130 | the "id:version" cache stays coherent after the write-through |
| TemplateDaos.SaveKeepsIdCache | src/main/java/com/templatemanagement/dao/MasterTemplateDao.java:131 | the by-id cache stays coherent after the write-through |
| TemplateDaos.ArchiveKeepsCoherence | src/main/java/com/templatemanagement/dao/MasterTemplateDao.java:152-160 | archiving a key and evicting it from both caches keeps them coherent |
| TemplateDaos.UncachedWhenAbsent | src/main/java/com/templatemanagement/dao/MasterTemplateDao.java:152-160 | a key that has no row at all is not in the "id:version" cache |
| TemplateDaos.FoundMeansAffected | src/main/java/com/templatemanagement/dao/MasterTemplateDao.java:154-157 | when the store answers for a key, the archive UPDATE affects at least one row |
| TemplateDaos.MasterTemplateDao.constructor | src/main/java/com/templatemanagement/dao/MasterTemplateDao.java:35-52 | both caches start empty and coherent |
| TemplateDaos.MasterTemplateDao.FindByIdAndVersion | src/main/java/com/templatemanagement/dao/MasterTemplateDao.java:57-73 | the answer is always the store's; a hit leaves the cache unchanged, a found miss is cached under "id:version", not-found is never cached, and the by-id cache is untouched |
| TemplateDaos.MasterTemplateDao.Save | src/main/java/com/templatemanagement/dao/MasterTemplateDao.java:124-133 | upserts the row and puts the DTO under "id:version" and under its id, keeping coherence |
| TemplateDaos.MasterTemplateDao.Update | src/main/java/com/templatemanagement/dao/MasterTemplateDao.java:138-147 | the same write-through as save |
| TemplateDaos.MasterTemplateDao.ArchiveTemplate | src/main/java/com/templatemanagement/dao/MasterTemplateDao.java:152-160 | archives the key; both entries are evicted iff the count is positive; a count of 0 changes neither the store nor the caches; afterwards the key is neither cached nor found |
| TemplateDaos.MasterTemplateDao.InvalidateCache | src/main/java/com/templatemanagement/dao/MasterTemplateDao.java:188-193 | removes exactly the "id:version" entry and the id entry and keeps coherence |
| TemplateDaos.MasterTemplateDao.InvalidateAllCache | src/main/java/com/templatemanagement/dao/MasterTemplateDao.java:198-202 | both caches become empty |
| TemplateDaos.MasterTemplateDao.FindWithFilters | src/main/java/com/templatemanagement/dao/MasterTemplateDao.java:96-108 | the window starts at offset page * size: rejected iff size or that offset is negative, otherwise min(size, count - offset) DTOs forming the page at that offset of the filtered list (IsFilteredPage): the window [page * size, page * size + size) of some created_timestamp DESC ordering of all matching rows' DTOs, so no DTO occurs more often than among them, newest created first |
| TemplateDaos.FilteredPageDtos | src/main/java/com/templatemanagement/dao/MasterTemplateDao.java:105-107 | mapping the repository window at LIMIT limit OFFSET offset through toDto gives the page at that offset of the filtered list: the window [offset, offset + limit) of a created_timestamp DESC ordering (NULLs first) of all matching rows' DTOs, hence a sub-multiset of them in that order, and min(limit, count - offset) long |
| TemplateDaos.MatchingRecords | src/main/java/com/templatemanagement/repository/MasterTemplateRepository.java:103-118 | every record of a page of the filtered list is the record of a stored row that satisfies the filters |
| TemplateDaos.MasterTemplateDao.CountWithFilters | src/main/java/com/templatemanagement/dao/MasterTemplateDao.java:113-119 | the repository count |
| TemplateDaos.MasterTemplateDao.FindAllVersionsById | src/main/java/com/templatemanagement/dao/MasterTemplateDao.java:78-82 | the DTOs of the repository's all-versions list, in its order |
| TemplateDaos.MasterTemplateDao.FindByTypeAndVersion | src/main/java/com/templatemanagement/dao/MasterTemplateDao.java:87-91 | the DTO of the repository's answer, absent exactly when it is |
| TemplateDaos.MasterTemplateDao.GetNextVersionNumber | src/main/java/com/templatemanagement/dao/MasterTemplateDao.java:165-167 | the repository's next version number |
| TemplateDaos.MasterTemplateDao.ExistsByTemplateType | src/main/java/com/templatemanagement/dao/MasterTemplateDao.java:172-174 | the repository's existence answer |
| TemplateDaos.MasterTemplateDao.FindActiveTemplatesByLineOfBusiness | src/main/java/com/templatemanagement/dao/MasterTemplateDao.java:179-183 | the DTOs of the repository's list, in its order |
| VendorDaos.ToDto | src/main/java/com/templatemanagement/dao/TemplateVendorMappingDao.java:247-288 | the DTO carries the row's mapping id, and together with the archive and row-version columns it rebuilds the modelled row: every business field the model keeps is copied (the JSON columns are not part of the row) |
| VendorDaos.ToEntity | src/main/java/com/templatemanagement/dao/TemplateVendorMappingDao.java:305-347 | the entity is not archived and keeps the id; a present creation time is kept and a missing one becomes now; the update time is now; nothing else changes |
| VendorDaos.ToEntityRoundTrip | src/main/java/com/templatemanagement/dao/TemplateVendorMappingDao.java:247-347 | toDto after toEntity gives back a DTO whose timestamps already had those values |
| VendorDaos.StoreView | src/main/java/com/templatemanagement/dao/TemplateVendorMappingDao.java:68-69 | what the store answers for an id, as a DTO: present iff a live row has the id, and then carrying it |
| VendorDaos.WithoutPrefix | src/main/java/com/templatemanagement/dao/TemplateVendorMappingDao.java:219 | keeps exactly the keys that do not start with the prefix, with their values |
| VendorDaos.WithoutPrefixIdempotent | src/main/java/com/templatemanagement/dao/TemplateVendorMappingDao.java:218-221 | invalidating a template's list entries twice removes nothing more |
| VendorDaos.EvictionKeepsCoherence | src/main/java/com/templatemanagement/dao/TemplateVendorMappingDao.java:210-230 | removing any entries keeps the id cache coherent |
| VendorDaos.SaveKeepsCoherence | src/main/java/com/templatemanagement/dao/TemplateVendorMappingDao.java:148-156 | saving a live row and caching its DTO under its id keeps the cache coherent |
| VendorDaos.ArchiveKeepsCoherence | src/main/java/com/templatemanagement/dao/TemplateVendorMappingDao.java:174-185 | archiving an id and evicting it keeps the cache coherent |
| VendorDaos.HealthUpdateKeepsCoherence | src/main/java/com/templatemanagement/dao/TemplateVendorMappingDao.java:190-198 | a health update of an id with the id evicted keeps the cache coherent |
| VendorDaos.UncachedWhenAbsent | src/main/java/com/templatemanagement/dao/TemplateVendorMappingDao.java:176-184 | an id the store does not answer for is not cached |
| VendorDaos.FoundMeansAffected | src/main/java/com/templatemanagement/dao/TemplateVendorMappingDao.java:176-179 | when the lookup finds the id, the archive UPDATE affects at least one row |
| VendorDaos.TemplateVendorMappingDao.constructor | src/main/java/com/templatemanagement/dao/TemplateVendorMappingDao.java:37-54 | both caches start empty and coherent |
| VendorDaos.TemplateVendorMappingDao.FindById | src/main/java/com/templatemanagement/dao/TemplateVendorMappingDao.java:59-74 | the answer is always the store's; a hit leaves the cache unchanged, a found miss is cached under the id, not-found is never cached, and the list cache is untouched |
| VendorDaos.TemplateVendorMappingDao.Save | src/main/java/com/templatemanagement/dao/TemplateVendorMappingDao.java:148-156 | upserts the row, caches the DTO under its own id and drops the list entries of its template, keeping coherence |
| VendorDaos.TemplateVendorMappingDao.Update | src/main/java/com/templatemanagement/dao/TemplateVendorMappingDao.java:161-169 | the same write-through as save |
| VendorDaos.TemplateVendorMappingDao.ArchiveVendorMapping | src/main/java/com/templatemanagement/dao/TemplateVendorMappingDao.java:174-185 | with no live row of the id: 0, and neither store nor caches change; otherwise the rows are archived, the count is positive, and the id and the list entries of the row's template are evicted; afterwards the id is neither cached nor found |
| VendorDaos.TemplateVendorMappingDao.ArchiveFound | src/main/java/com/templatemanagement/dao/TemplateVendorMappingDao.java:177-183 | once the row is found: the UPDATE affects it, then both evictions happen |
| VendorDaos.TemplateVendorMappingDao.UpdateVendorStatus | src/main/java/com/templatemanagement/dao/TemplateVendorMappingDao.java:190-198 | health UPDATE; the id entry alone is evicted, only when the count is positive; the list cache never changes |
| VendorDaos.TemplateVendorMappingDao.InvalidateCache | src/main/java/com/templatemanagement/dao/TemplateVendorMappingDao.java:210-213 | removes exactly the id entry and keeps coherence |
| VendorDaos.TemplateVendorMappingDao.InvalidateListCache | src/main/java/com/templatemanagement/dao/TemplateVendorMappingDao.java:218-221 | removes exactly the list keys starting with the template id; the id cache is untouched |
| VendorDaos.TemplateVendorMappingDao.InvalidateAllCache | src/main/java/com/templatemanagement/dao/TemplateVendorMappingDao.java:226-230 | both caches become empty |
| VendorDaos.TemplateVendorMappingDao.FindWithFilters | src/main/java/com/templatemanagement/dao/TemplateVendorMappingDao.java:124-136 | the window starts at offset page * size: rejected iff size or that offset is negative, otherwise min(size, count - offset) DTOs forming the page at that offset of the filtered list (IsFilteredPage): the window [page * size, page * size + size) of some created_timestamp DESC ordering of all matching rows' DTOs, so no DTO occurs more often than among them, newest created first |
| VendorDaos.FilteredPageMappings | src/main/java/com/templatemanagement/dao/TemplateVendorMappingDao.java:133-135 | mapping the repository window at LIMIT limit OFFSET offset through toDto gives the page at that offset of the filtered list: the window [offset, offset + limit) of a created_timestamp DESC ordering (NULLs first) of all matching rows' DTOs, hence a sub-multiset of them in that order, and min(limit, count - offset) long |
| VendorDaos.MatchingRecords | src/main/java/com/templatemanagement/repository/TemplateVendorMappingRepository.java:97-112 | every record of a page of the filtered list is the record of a stored row that satisfies the filters |
| VendorDaos.TemplateVendorMappingDao.CountWithFilters | src/main/java/com/templatemanagement/dao/TemplateVendorMappingDao.java:141-143 | the repository count |
| VendorDaos.TemplateVendorMappingDao.FindByMasterTemplateId | src/main/java/com/templatemanagement/dao/TemplateVendorMappingDao.java:79-83 | the DTOs of the repository's list, in its order |
| VendorDaos.TemplateVendorMappingDao.FindByMasterTemplateIdAndVersion | src/main/java/com/templatemanagement/dao/TemplateVendorMappingDao.java:88-92 | the DTOs of the repository's list, in its order |
| VendorDaos.TemplateVendorMappingDao.FindByMasterTemplateIdAndVendorType | src/main/java/com/templatemanagement/dao/TemplateVendorMappingDao.java:97-101 | the DTOs of the repository's list, in its order |
| VendorDaos.TemplateVendorMappingDao.FindPrimaryVendorMapping | src/main/java/com/templatemanagement/dao/TemplateVendorMappingDao.java:106-110 | the DTO of the repository's answer, absent exactly when it is |
| VendorDaos.TemplateVendorMappingDao.FindActiveVendorsForRouting | src/main/java/com/templatemanagement/dao/TemplateVendorMappingDao.java:115-119 | the DTOs of the routing candidates, in priority order |
| VendorDaos.TemplateVendorMappingDao.ExistsDuplicateMapping | src/main/java/com/templatemanagement/dao/TemplateVendorMappingDao.java:203-205 | the repository's duplicate answer |
| EntityBuilders.BuildTemplateEntity | src/main/java/com/templatemanagement/service/TemplateService.java:299-336 | a live, active DRAFT row with row version 1 under the given id and version; absent fields default to "en", "LETTER", "2_EYES", single-document true and the other flags false; audit fields are the creator and now |
| EntityBuilders.BuildUpdatedEntity | src/main/java/com/templatemanagement/service/TemplateService.java:338-375 | every patchable field is the request's when present, else the existing one; type, line of business, legacy ids and creation audit come from the existing record; not archived; row version is the existing version + 1 |
| EntityBuilders.EmptyPatchKeepsTemplate | src/main/java/com/templatemanagement/service/TemplateService.java:338-375 | an empty patch under the same version changes nothing but the update stamps |
| EntityBuilders.TemplatePatchIdempotent | src/main/java/com/templatemanagement/service/TemplateService.java:338-375 | applying a patch to its own result gives the same record |
| EntityBuilders.BuildVendorEntity | src/main/java/com/templatemanagement/service/TemplateService.java:377-412 | a live mapping with the fresh id, mapping version 1, active, ACTIVE, DRAFT template and record status, row version 1; absent fields default to start now, primary false, priority 1, timeout 30000, 3 retries, 1000 ms backoff |
| EntityBuilders.BuildUpdatedVendorEntity | src/main/java/com/templatemanagement/service/TemplateService.java:414-452 | id, template, version, vendor, vendor type, mapping version and record status are copied; each patchable field is the request's when present, else existing; row version is mapping version + 1, or 1 when it is unset |
| EntityBuilders.VendorPatchIdempotent | src/main/java/com/templatemanagement/service/TemplateService.java:414-452 | applying a mapping patch to its own result gives the same mapping |
| EntityBuilders.VendorUpdateKeepsSlot | src/main/java/com/templatemanagement/service/TemplateService.java:419-423 | an update keeps the mapping's routing slot and duplicate identity |
| TemplateServices.TemplateService.constructor | src/main/java/com/templatemanagement/service/TemplateService.java:32-35 | the service holds the two DAOs it is given |
| TemplateServices.TemplateService.CreateTemplate | src/main/java/com/templatemanagement/service/TemplateService.java:44-60 | a live template of the type gives Conflict with store and caches unchanged; otherwise version 1 of the fresh id is saved and found by the store |
| TemplateServices.TemplateService.GetTemplateById | src/main/java/com/templatemanagement/service/TemplateService.java:66-78 | NotFound iff the id has no live version; otherwise all live versions, strictly newest first, as a single page |
| TemplateServices.TemplateService.GetTemplateByIdAndVersion | src/main/java/com/templatemanagement/service/TemplateService.java:84-97 | NotFound iff the store has no live row of the key; otherwise the store's record, with the version's live mappings when asked |
| TemplateServices.TemplateService.ListTemplates | src/main/java/com/templatemanagement/service/TemplateService.java:103-119 | rejected iff size or page * size is negative; otherwise the page metadata of the filtered count, hasNext iff elements lie beyond the page, and min(size, count - page * size) templates that are records of stored rows matching the filters: the page at offset page * size of the filtered list (IsFilteredPage): the window [page * size, page * size + size) of a created_timestamp DESC ordering of all matching rows' records, so no record occurs more often than among them, newest created first, and each is a matching stored row's record (MatchingRecords) |
| TemplateServices.TemplateService.UpdateTemplate | src/main/java/com/templatemanagement/service/TemplateService.java:126-150 | NotFound with nothing written when the key has no live row; a fork saves the patched record under the next version, which exceeds the old one, and leaves the old version as it was; in place overwrites the same key |
| TemplateServices.TemplateService.SaveAsNextVersion | src/main/java/com/templatemanagement/service/TemplateService.java:138-143 | the fork branch: the patched record lands under the next free version and the old version is still found unchanged |
| TemplateServices.TemplateService.SaveInPlace | src/main/java/com/templatemanagement/service/TemplateService.java:144-148 | the in-place branch: the patched record replaces the row of the same id and version |
| TemplateServices.TemplateService.DeleteTemplate | src/main/java/com/templatemanagement/service/TemplateService.java:155-164 | NotFound with nothing written when the key has no live row; otherwise the key is archived, no longer found, and in neither cache |
| TemplateServices.TemplateService.CreateVendorMapping | src/main/java/com/templatemanagement/service/TemplateService.java:173-200 | a missing parent gives NotFound, checked before duplicates; a duplicate gives Conflict; both write nothing; otherwise the built mapping is saved, found under the fresh id, and returned with its parent |
| TemplateServices.TemplateService.SaveUnlessDuplicate | src/main/java/com/templatemanagement/service/TemplateService.java:182-198 | Conflict with nothing written on a duplicate; otherwise the mapping is saved and found |
| TemplateServices.TemplateService.GetVendorMappingById | src/main/java/com/templatemanagement/service/TemplateService.java:205-219 | NotFound iff no live mapping has the id; otherwise the store's mapping, with the store's answer for its template version when asked (absent when that version is not found) |
| TemplateServices.TemplateService.WithTemplateDetails | src/main/java/com/templatemanagement/service/TemplateService.java:212-215 | the mapping paired with the store's answer for its template version |
| TemplateServices.TemplateService.ListVendorMappings | src/main/java/com/templatemanagement/service/TemplateService.java:224-241 | rejected iff size or page * size is negative; otherwise the filtered count's page metadata, hasNext iff elements lie beyond the page, and min(size, count - page * size) mappings that are records of stored rows matching the filters: the page at offset page * size of the filtered list (IsFilteredPage): the window [page * size, page * size + size) of a created_timestamp DESC ordering of all matching rows' records, so no record occurs more often than among them, newest created first, and each is a matching stored row's record (MatchingRecords) |
| TemplateServices.TemplateService.UpdateVendorMapping | src/main/java/com/templatemanagement/service/TemplateService.java:247-261 | NotFound with nothing written for an unknown id; otherwise the patched mapping replaces it and is found |
| TemplateServices.TemplateService.DeleteVendorMapping | src/main/java/com/templatemanagement/service/TemplateService.java:267-275 | NotFound with nothing written for an unknown id; otherwise its rows are archived and it is neither found nor cached |
| TemplateServices.TemplateService.GetVendorsForRouting | src/main/java/com/templatemanagement/service/TemplateService.java:280-293 | the routing candidates in priority order, all active and routable, as a single page, with no pages when empty |

## Left out

- Reactive composition (`Mono`/`Flux`) and `@Transactional` are not modelled. Each service call is a sequential method that returns a result or a typed error.
- A single-row query that matches several rows is modelled as answering the first of them in storage order. The source's behaviour in that case is not modelled.
- Caffeine internals are not modelled: TTL expiry, maximum size, hit/miss statistics and `getCacheStats`. The caches are maps. `EvictionKeepsCoherence` shows that entries may vanish at any time without breaking coherence.
- `vendorListCache` is never filled anywhere in the source; it is only invalidated. The model keeps it as a map that the DAO only shrinks.
- `repository.save` is inherited from `R2dbcRepository`. It is modelled as an upsert keyed by (masterTemplateId, templateVersion) for templates and by templateVendorId for mappings. Spring Data's own rule differs: the template entity puts `@Id` on `master_template_id` alone (src/main/java/com/templatemanagement/entity/MasterTemplateDefinitionEntity.java:26-28) and implements neither `Persistable` nor a `@Version` field, so Spring Data treats a non-null id as an existing row, and a save with a pre-assigned UUID would become an UPDATE by id rather than an insert.
- Jackson JSON conversion, the JSON configuration columns and `templateContent` are not part of the records.
- The legacy columns `templateTypeOld` and `documentChannelOld` of the template entity are not part of the records: no query filters or orders by them, and no service operation reads them. `toDto` drops them and `toEntity` leaves them null.
- The `build*` helpers set `supportedRegions`, `supportedFormats`, `lastHealthCheck` and `lastHealthStatus` to unset. The model states this as written.
- `LocalDateTime.now()` is one timestamp parameter per call. The source may read the clock several times in one call, and those values are taken as equal.
- `System.currentTimeMillis()` and `UUID.randomUUID()` are parameters. The model does not assume a fresh UUID is unused; the saved row replaces any row with the same id.
- Concurrency is not modelled: races between `getNextVersionNumber` and the insert, and concurrent cache access.
- Pagination.Of: `Math.ceil` over a double is modelled as exact integer ceiling division, which agrees for totals below 2^53. The `(int)` cast of the page count is not modelled; integers are unbounded. The DAOs compute the offset `page * size` as a `long`, so it cannot overflow.
- The controllers, `TemplateManagementProcessor`, `CorrelationIdFilter`, `GlobalExceptionHandler` and `CacheConfig` are not part of this model. Neither is logging.
- The updater and the time of the archive and health UPDATEs are the caller's `updatedBy` and timestamp parameter. `NOW()` in SQL is that parameter.
