/**
  TemplateVendorMappingDao: the vendor-mapping store behind a cache keyed by
  templateVendorId and a list cache keyed by strings that start with a template
  id. Reads by id go through the first cache; writes go through to it and drop
  the list entries of the written mapping's template; an archive or a health
  update that affects a row evicts the id. Valid() carries the coherence
  invariant of the id cache.
 */
module VendorDaos {
  import opened Wrappers
  import opened Identifiers
  import opened Records
  import opened Sequences
  import opened VendorRepo

  /**
    toDto: the business record of a row. It carries the row's id, and it loses
    no business field: with the storage columns it rebuilds the row.
   */
  function ToDto(row: VendorRow): (d: VendorMapping)
    ensures d.templateVendorId == VendorKey(row)
    ensures VendorRow(d, row.archiveIndicator, row.archiveTimestamp, row.versionNumber) == row
  {
    row.mapping
  }

  /** toEntity: a fresh, non-archived row; a missing creation time becomes now, the update time is now. */
  function ToEntity(dto: VendorMapping, now: Timestamp): (row: VendorRow)
    ensures !row.archiveIndicator && row.archiveTimestamp.None? && row.versionNumber.None?
    ensures VendorKey(row) == dto.templateVendorId
    ensures row.mapping.createdTimestamp == if dto.createdTimestamp.Some? then dto.createdTimestamp else Some(now)
    ensures row.mapping.updatedTimestamp == Some(now)
    ensures row.mapping.(createdTimestamp := dto.createdTimestamp, updatedTimestamp := dto.updatedTimestamp) == dto
  {
    var created := if dto.createdTimestamp.Some? then dto.createdTimestamp else Some(now);
    VendorRow(dto.(createdTimestamp := created, updatedTimestamp := Some(now)), false, None, None)
  }

  /** toDto after toEntity gives back a DTO that already had both timestamps set to those values. */
  lemma ToEntityRoundTrip(dto: VendorMapping, now: Timestamp)
    requires dto.createdTimestamp.Some? && dto.updatedTimestamp == Some(now)
    ensures ToDto(ToEntity(dto, now)) == dto
  {
  }

  /** What the store answers for an id, as a DTO. */
  function StoreView(rows: seq<VendorRow>, id: Uuid): (r: Option<VendorMapping>)
    ensures r.Some? <==> exists x :: x in rows && Live(x) && VendorKey(x) == id
    ensures r.Some? ==> r.value.templateVendorId == id
  {
    match FindByVendorId(rows, id)
    case None => None
    case Some(row) => Some(ToDto(row))
  }

  function Mappings(rows: seq<VendorRow>): (r: seq<VendorMapping>)
    ensures |r| == |rows| && forall i :: 0 <= i < |rows| ==> r[i] == rows[i].mapping
  {
    Map(rows, ToDto)
  }

  /** created_timestamp DESC (NULLs first) on the DTOs, the order of the filtered list. */
  predicate DtoCreatedDesc(a: VendorMapping, b: VendorMapping) {
    NewestFirst(a.createdTimestamp, b.createdTimestamp)
  }

  /**
    The page at LIMIT limit OFFSET offset of the filtered list: the window of an
    ordering, newest created first, of the records of the rows that match the
    filters. So no record occurs more often than among those records, and the
    page is itself newest created first.
   */
  ghost predicate IsFilteredPage(rows: seq<VendorRow>, templateId: Option<Uuid>, vendorType: Option<string>,
                                 vendor: Option<string>, activeFlag: Option<bool>,
                                 limit: int, offset: int, page: seq<VendorMapping>)
  {
    var matching := Mappings(Filter(rows, Matching(templateId, vendorType, vendor, activeFlag)));
    && limit >= 0 && offset >= 0
    && (exists s :: multiset(s) == multiset(matching) && SortedBy(s, DtoCreatedDesc) && page == Window(s, limit, offset))
    && multiset(page) <= multiset(matching)
    && SortedBy(page, DtoCreatedDesc)
  }

  /**
    The DTOs of the repository page at LIMIT limit OFFSET offset are that page
    of the filtered list, min(limit, count - offset) of them.
   */
  lemma FilteredPageMappings(rows: seq<VendorRow>, templateId: Option<Uuid>, vendorType: Option<string>,
                             vendor: Option<string>, activeFlag: Option<bool>, limit: int, offset: int)
    requires limit >= 0 && offset >= 0
    ensures IsFilteredPage(rows, templateId, vendorType, vendor, activeFlag, limit, offset,
                           Mappings(VendorRepo.FindWithFilters(rows, templateId, vendorType, vendor, activeFlag,
                                                               limit, offset).value))
    ensures var total := VendorRepo.CountWithFilters(rows, templateId, vendorType, vendor, activeFlag);
            |Mappings(VendorRepo.FindWithFilters(rows, templateId, vendorType, vendor, activeFlag, limit, offset).value)|
            == if offset >= total then 0 else Min(limit, total - offset)
  {
    CreatedDescIsTotal();
    var f := Filter(rows, Matching(templateId, vendorType, vendor, activeFlag));
    var s := Sort(f, CreatedDesc);
    var p := VendorRepo.FindWithFilters(rows, templateId, vendorType, vendor, activeFlag, limit, offset).value;
    assert p == Window(s, limit, offset);
    MapKeepsPermutation(s, f, ToDto);
    MapWindow(s, ToDto, limit, offset);
    assert SortedBy(Mappings(s), DtoCreatedDesc);
    var page := Window(Mappings(s), limit, offset);
    assert multiset(page) <= multiset(Mappings(f));
    assert SortedBy(page, DtoCreatedDesc) by {
      forall i, j | 0 <= i < j < |page| ensures DtoCreatedDesc(page[i], page[j]) {
        assert page[i] == Mappings(s)[offset + i] && page[j] == Mappings(s)[offset + j];
      }
    }
  }

  /** Every record of a page of the filtered list is the record of a stored row that matches the filters. */
  lemma {:induction false} MatchingRecords(rows: seq<VendorRow>, templateId: Option<Uuid>, vendorType: Option<string>,
                                           vendor: Option<string>, activeFlag: Option<bool>, limit: int, offset: int,
                                           page: seq<VendorMapping>)
    requires IsFilteredPage(rows, templateId, vendorType, vendor, activeFlag, limit, offset, page)
    ensures forall m :: m in page ==>
              exists x :: x in rows && x.mapping == m && MatchesFilters(x, templateId, vendorType, vendor, activeFlag)
  {
    var f := Filter(rows, Matching(templateId, vendorType, vendor, activeFlag));
    forall m | m in page
      ensures exists x :: x in rows && x.mapping == m && MatchesFilters(x, templateId, vendorType, vendor, activeFlag)
    {
      assert m in multiset(Mappings(f));
      var i :| 0 <= i < |Mappings(f)| && Mappings(f)[i] == m;
      assert f[i] in f;
    }
  }

  /** The list cache after removeIf(key starts with the template id). */
  function WithoutPrefix<V>(m: map<string, V>, prefix: string): (r: map<string, V>)
    ensures forall k :: k in r <==> k in m && !(prefix <= k)
    ensures forall k :: k in r ==> r[k] == m[k]
  {
    map k | k in m && !(prefix <= k) :: m[k]
  }

  /** Dropping a prefix twice drops nothing more. */
  lemma WithoutPrefixIdempotent<V>(m: map<string, V>, prefix: string)
    ensures WithoutPrefix(WithoutPrefix(m, prefix), prefix) == WithoutPrefix(m, prefix)
  {
  }

  /** An entry is filed under its own id and equals the store's answer for that id. */
  ghost predicate EntryIsCurrent(rows: seq<VendorRow>, id: Uuid, c: VendorMapping) {
    c.templateVendorId == id && StoreView(rows, id) == Some(c)
  }

  /** The id cache holds only what the store would answer for each id. */
  ghost predicate Coherent(rows: seq<VendorRow>, cache: map<Uuid, VendorMapping>) {
    forall id :: id in cache ==> EntryIsCurrent(rows, id, cache[id])
  }

  /** Entries may vanish at any time (expiry, size eviction, invalidation) without breaking coherence. */
  lemma EvictionKeepsCoherence(rows: seq<VendorRow>, cache: map<Uuid, VendorMapping>, ids: set<Uuid>)
    requires Coherent(rows, cache)
    ensures Coherent(rows, cache - ids)
  {
  }

  /** Writing a live row through to the cache keeps it coherent. */
  lemma SaveKeepsCoherence(rows: seq<VendorRow>, cache: map<Uuid, VendorMapping>, e: VendorRow)
    requires Coherent(rows, cache)
    requires Live(e)
    ensures Coherent(UpsertBy(rows, e, VendorKey), cache[VendorKey(e) := e.mapping])
  {
    var rows' := UpsertBy(rows, e, VendorKey);
    var cache' := cache[VendorKey(e) := e.mapping];
    forall id | id in cache' ensures EntryIsCurrent(rows', id, cache'[id]) {
      if id == VendorKey(e) {
        SaveThenFind(rows, e);
      } else {
        assert EntryIsCurrent(rows, id, cache[id]);
        SaveKeepsOtherIds(rows, e, id);
      }
    }
  }

  /** Archiving an id and evicting it keeps the cache coherent. */
  lemma ArchiveKeepsCoherence(rows: seq<VendorRow>, cache: map<Uuid, VendorMapping>, id: Uuid,
                              updatedBy: string, now: Timestamp)
    requires Coherent(rows, cache)
    ensures Coherent(UpdateWhere(rows, HasId(id), ArchivedBy(updatedBy, now)), cache - {id})
  {
    var rows' := UpdateWhere(rows, HasId(id), ArchivedBy(updatedBy, now));
    forall other | other in cache - {id} ensures EntryIsCurrent(rows', other, cache[other]) {
      assert EntryIsCurrent(rows, other, cache[other]);
      ArchiveKeepsOtherIds(rows, id, updatedBy, now, other);
    }
  }

  /** A health update of an id, with the id evicted, keeps the cache coherent. */
  lemma HealthUpdateKeepsCoherence(rows: seq<VendorRow>, cache: map<Uuid, VendorMapping>, id: Uuid,
                                   vendorStatus: Option<string>, healthStatus: Option<string>, now: Timestamp)
    requires Coherent(rows, cache)
    ensures Coherent(UpdateWhere(rows, HasId(id), HealthUpdated(vendorStatus, healthStatus, now)), cache - {id})
  {
    var rows' := UpdateWhere(rows, HasId(id), HealthUpdated(vendorStatus, healthStatus, now));
    forall other | other in cache - {id} ensures EntryIsCurrent(rows', other, cache[other]) {
      assert EntryIsCurrent(rows, other, cache[other]);
      HealthUpdateKeepsOtherIds(rows, id, vendorStatus, healthStatus, now, other);
    }
  }

  /** An id the store does not answer for cannot be cached. */
  lemma UncachedWhenAbsent(rows: seq<VendorRow>, cache: map<Uuid, VendorMapping>, id: Uuid)
    requires Coherent(rows, cache)
    requires FindByVendorId(rows, id).None?
    ensures id !in cache
  {
    forall other | other in cache ensures other != id {
      assert EntryIsCurrent(rows, other, cache[other]);
    }
  }

  /** When the lookup finds a live row, the archive UPDATE affects at least that row. */
  lemma FoundMeansAffected(rows: seq<VendorRow>, id: Uuid)
    requires FindByVendorId(rows, id).Some?
    ensures Count(rows, HasId(id)) > 0
  {
    var x := FindByVendorId(rows, id).value;
    assert x in rows && HasId(id)(x);
  }

  class TemplateVendorMappingDao {
    const repo: TemplateVendorMappingRepository
    var vendorCache: map<Uuid, VendorMapping>
    var vendorListCache: map<string, seq<VendorMapping>>

    ghost predicate Valid()
      reads this, repo
    {
      (repo as object) != this && repo.Valid() && Coherent(repo.rows, vendorCache)
    }

    constructor (repository: TemplateVendorMappingRepository)
      requires repository.Valid()
      ensures Valid() && repo == repository
      ensures vendorCache == map[] && vendorListCache == map[]
    {
      repo := repository;
      vendorCache := map[];
      vendorListCache := map[];
    }

    /** Read-through lookup: a hit is answered from the cache, a found row is cached, not-found is not. */
    method FindById(id: Uuid) returns (r: Option<VendorMapping>)
      requires Valid()
      modifies this
      ensures Valid()
      ensures r == StoreView(repo.rows, id)
      ensures vendorListCache == old(vendorListCache)
      ensures id in old(vendorCache) ==> r == Some(old(vendorCache)[id]) && vendorCache == old(vendorCache)
      ensures id !in old(vendorCache) && r.Some? ==> vendorCache == old(vendorCache)[id := r.value]
      ensures r.None? ==> vendorCache == old(vendorCache)
    {
      if id in vendorCache {
        assert EntryIsCurrent(repo.rows, id, vendorCache[id]);
        r := Some(vendorCache[id]);
      } else {
        var found := FindByVendorId(repo.rows, id);
        if found.Some? {
          r := Some(ToDto(found.value));
          vendorCache := vendorCache[id := r.value];
        } else {
          r := None;
        }
      }
    }

    /** save: stores the row, caches its DTO under its id and drops the list entries of its template. */
    method Save(entity: VendorRow) returns (dto: VendorMapping)
      requires Valid()
      requires Live(entity)
      modifies this, repo
      ensures Valid()
      ensures repo.rows == UpsertBy(old(repo.rows), entity, VendorKey)
      ensures dto == entity.mapping
      ensures vendorCache == old(vendorCache)[dto.templateVendorId := dto]
      ensures vendorListCache == WithoutPrefix(old(vendorListCache), dto.masterTemplateId)
    {
      SaveKeepsCoherence(repo.rows, vendorCache, entity);
      var saved := repo.Save(entity);
      dto := ToDto(saved);
      vendorCache := vendorCache[dto.templateVendorId := dto];
      InvalidateListCache(dto.masterTemplateId);
    }

    /** update: the same write-through as save. */
    method Update(entity: VendorRow) returns (dto: VendorMapping)
      requires Valid()
      requires Live(entity)
      modifies this, repo
      ensures Valid()
      ensures repo.rows == UpsertBy(old(repo.rows), entity, VendorKey)
      ensures dto == entity.mapping
      ensures vendorCache == old(vendorCache)[dto.templateVendorId := dto]
      ensures vendorListCache == WithoutPrefix(old(vendorListCache), dto.masterTemplateId)
    {
      dto := Save(entity);
    }

    /**
      archiveVendorMapping: nothing happens and 0 is returned unless a live row
      has the id; otherwise every row with the id is archived and, since the
      count is then positive, the id and the list entries of the row's template
      are evicted.
     */
    method ArchiveVendorMapping(id: Uuid, updatedBy: string, now: Timestamp) returns (count: int)
      requires Valid()
      modifies this, repo
      ensures Valid()
      ensures FindByVendorId(old(repo.rows), id).None? ==>
                count == 0 && repo.rows == old(repo.rows)
                && vendorCache == old(vendorCache) && vendorListCache == old(vendorListCache)
      ensures FindByVendorId(old(repo.rows), id).Some? ==>
                && repo.rows == UpdateWhere(old(repo.rows), HasId(id), ArchivedBy(updatedBy, now))
                && count == Count(old(repo.rows), HasId(id)) && count > 0
                && vendorCache == old(vendorCache) - {id}
                && vendorListCache == WithoutPrefix(old(vendorListCache),
                                                    FindByVendorId(old(repo.rows), id).value.mapping.masterTemplateId)
      ensures id !in vendorCache
      ensures FindByVendorId(repo.rows, id).None?
    {
      var entity := FindByVendorId(repo.rows, id);
      if entity.None? {
        UncachedWhenAbsent(repo.rows, vendorCache, id);
        count := 0;
        return;
      }
      count := ArchiveFound(id, entity.value, updatedBy, now);
    }

    /** The archive once the lookup has found the row: the UPDATE, then both evictions when a row was affected. */
    method ArchiveFound(id: Uuid, entity: VendorRow, updatedBy: string, now: Timestamp) returns (count: int)
      requires Valid()
      requires FindByVendorId(repo.rows, id) == Some(entity)
      modifies this, repo
      ensures Valid()
      ensures repo.rows == UpdateWhere(old(repo.rows), HasId(id), ArchivedBy(updatedBy, now))
      ensures count == Count(old(repo.rows), HasId(id)) && count > 0
      ensures vendorCache == old(vendorCache) - {id}
      ensures vendorListCache == WithoutPrefix(old(vendorListCache), entity.mapping.masterTemplateId)
      ensures FindByVendorId(repo.rows, id).None?
    {
      FoundMeansAffected(repo.rows, id);
      ArchiveKeepsCoherence(repo.rows, vendorCache, id, updatedBy, now);
      ArchiveThenNotFound(repo.rows, id, updatedBy, now);
      count := repo.ArchiveVendorMapping(id, updatedBy, now);
      if count > 0 {
        vendorCache := vendorCache - {id};
        InvalidateListCache(entity.mapping.masterTemplateId);
      }
    }

    /** updateVendorStatus: health update; only the id entry is evicted, and only when a row was affected. */
    method UpdateVendorStatus(id: Uuid, vendorStatus: Option<string>, healthStatus: Option<string>, now: Timestamp)
      returns (count: int)
      requires Valid()
      modifies this, repo
      ensures Valid()
      ensures repo.rows == UpdateWhere(old(repo.rows), HasId(id), HealthUpdated(vendorStatus, healthStatus, now))
      ensures count == Count(old(repo.rows), HasId(id))
      ensures count > 0 ==> vendorCache == old(vendorCache) - {id}
      ensures count == 0 ==> vendorCache == old(vendorCache) && repo.rows == old(repo.rows)
      ensures vendorListCache == old(vendorListCache)
    {
      ghost var lists := vendorListCache;
      HealthUpdateKeepsCoherence(repo.rows, vendorCache, id, vendorStatus, healthStatus, now);
      count := repo.UpdateVendorStatus(id, vendorStatus, healthStatus, now);
      assert vendorListCache == lists;  // the repository call touches only the repository
      if count > 0 {
        vendorCache := vendorCache - {id};
      }
    }

    /** invalidateCache: removes exactly the id entry. */
    method InvalidateCache(id: Uuid)
      requires Valid()
      modifies this
      ensures Valid()
      ensures vendorCache == old(vendorCache) - {id}
      ensures vendorListCache == old(vendorListCache)
    {
      EvictionKeepsCoherence(repo.rows, vendorCache, {id});
      vendorCache := vendorCache - {id};
    }

    /** invalidateListCache: removes exactly the list keys that start with the template id. */
    method InvalidateListCache(templateId: Uuid)
      modifies this
      ensures vendorListCache == WithoutPrefix(old(vendorListCache), templateId)
      ensures vendorCache == old(vendorCache)
      ensures old(Valid()) ==> Valid()
    {
      vendorListCache := WithoutPrefix(vendorListCache, templateId);
    }

    /** invalidateAllCache: both caches become empty. */
    method InvalidateAllCache()
      requires Valid()
      modifies this
      ensures Valid()
      ensures vendorCache == map[] && vendorListCache == map[]
    {
      vendorCache := map[];
      vendorListCache := map[];
    }

    /** findWithFilters: page `page` of `size` rows, i.e. the repository window at offset page * size. */
    method FindWithFilters(templateId: Option<Uuid>, vendorType: Option<string>, vendor: Option<string>,
                           activeFlag: Option<bool>, page: int, size: int)
      returns (r: Option<seq<VendorMapping>>)
      requires Valid()
      ensures r.None? <==> size < 0 || page * size < 0
      ensures r.Some? ==>
                var total := VendorRepo.CountWithFilters(repo.rows, templateId, vendorType, vendor, activeFlag);
                |r.value| == if page * size >= total then 0 else Min(size, total - page * size)
      ensures r.Some? ==> IsFilteredPage(repo.rows, templateId, vendorType, vendor, activeFlag, size, page * size, r.value)
    {
      if size < 0 || page * size < 0 {
        return None;
      }
      var offset := page * size;
      ghost var total := VendorRepo.CountWithFilters(repo.rows, templateId, vendorType, vendor, activeFlag);
      var rows := VendorRepo.FindWithFilters(repo.rows, templateId, vendorType, vendor, activeFlag, size, offset);
      FilteredPageMappings(repo.rows, templateId, vendorType, vendor, activeFlag, size, offset);
      r := Some(Mappings(rows.value));
      assert r.value == Mappings(rows.value);
      assert |r.value| == if offset >= total then 0 else Min(size, total - offset);
    }

    method CountWithFilters(templateId: Option<Uuid>, vendorType: Option<string>, vendor: Option<string>,
                            activeFlag: Option<bool>) returns (n: nat)
      requires Valid()
      ensures n == VendorRepo.CountWithFilters(repo.rows, templateId, vendorType, vendor, activeFlag)
    {
      n := VendorRepo.CountWithFilters(repo.rows, templateId, vendorType, vendor, activeFlag);
    }

    method FindByMasterTemplateId(templateId: Uuid) returns (r: seq<VendorMapping>)
      requires Valid()
      ensures r == Mappings(VendorRepo.FindByMasterTemplateId(repo.rows, templateId))
    {
      r := Mappings(VendorRepo.FindByMasterTemplateId(repo.rows, templateId));
    }

    method FindByMasterTemplateIdAndVersion(templateId: Uuid, v: int) returns (r: seq<VendorMapping>)
      requires Valid()
      ensures r == Mappings(VendorRepo.FindByMasterTemplateIdAndVersion(repo.rows, templateId, v))
    {
      r := Mappings(VendorRepo.FindByMasterTemplateIdAndVersion(repo.rows, templateId, v));
    }

    method FindByMasterTemplateIdAndVendorType(templateId: Uuid, vendorType: string) returns (r: seq<VendorMapping>)
      requires Valid()
      ensures r == Mappings(VendorRepo.FindByMasterTemplateIdAndVendorType(repo.rows, templateId, vendorType))
    {
      r := Mappings(VendorRepo.FindByMasterTemplateIdAndVendorType(repo.rows, templateId, vendorType));
    }

    method FindPrimaryVendorMapping(templateId: Uuid, v: int, vendorType: string) returns (r: Option<VendorMapping>)
      requires Valid()
      ensures r.None? <==> VendorRepo.FindPrimaryVendorMapping(repo.rows, templateId, v, vendorType).None?
      ensures r.Some? ==> r.value == ToDto(VendorRepo.FindPrimaryVendorMapping(repo.rows, templateId, v, vendorType).value)
    {
      var row := VendorRepo.FindPrimaryVendorMapping(repo.rows, templateId, v, vendorType);
      r := if row.Some? then Some(ToDto(row.value)) else None;
    }

    method FindActiveVendorsForRouting(templateId: Uuid, v: int, vendorType: string) returns (r: seq<VendorMapping>)
      requires Valid()
      ensures r == Mappings(VendorRepo.FindActiveVendorsForRouting(repo.rows, templateId, v, vendorType))
    {
      r := Mappings(VendorRepo.FindActiveVendorsForRouting(repo.rows, templateId, v, vendorType));
    }

    method ExistsDuplicateMapping(templateId: Uuid, v: int, vendor: string, vendorType: string) returns (b: bool)
      requires Valid()
      ensures b == VendorRepo.ExistsDuplicateMapping(repo.rows, templateId, v, vendor, vendorType)
    {
      b := VendorRepo.ExistsDuplicateMapping(repo.rows, templateId, v, vendor, vendorType);
    }
  }
}
