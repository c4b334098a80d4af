/**
  MasterTemplateDao: the template store behind two caches, one keyed by
  "id:version" and one keyed by template id. Reads go through the first cache,
  writes go through to both, and an archive that affects a row evicts both.
  Valid() carries the coherence invariant: every cached DTO is exactly what the
  store's point lookup gives for the DTO's own key.
 */
module TemplateDaos {
  import opened Wrappers
  import opened Identifiers
  import opened Records
  import opened Sequences
  import opened TemplateRepo

  /** The cache key: the UUID text, a ':' and the decimal version. */
  function BuildCacheKey(id: Uuid, v: int): (k: string)
    ensures |k| > 37 && k[..36] == id && k[36] == ':'
    ensures ParseInt(k[37..]) == v
  {
    var k := id + ":" + IntToString(v);
    assert k[37..] == IntToString(v);
    IntToStringRoundTrip(v);
    k
  }

  /** Distinct (id, version) pairs give distinct keys. */
  lemma CacheKeyInjective(a: Uuid, v: int, b: Uuid, w: int)
    ensures BuildCacheKey(a, v) == BuildCacheKey(b, w) <==> a == b && v == w
  {
    var ka := BuildCacheKey(a, v);
    var kb := BuildCacheKey(b, w);
    if ka == kb {
      assert a == ka[..36] == kb[..36] == b;
      assert ka[37..] == kb[37..];
    }
  }

  /**
    toDto: the business record of a row. It carries the row's key, and it loses
    no business field: with the storage columns it rebuilds the row.
   */
  function ToDto(row: TemplateRow): (d: MasterTemplate)
    ensures (d.masterTemplateId, d.templateVersion) == Key(row)
    ensures TemplateRow(d, row.archiveIndicator, row.archiveTimestamp, row.versionNumber) == row
  {
    row.template
  }

  /** toEntity: a fresh, non-archived row; a missing creation time becomes now, the update time is now. */
  function ToEntity(dto: MasterTemplate, now: Timestamp): (row: TemplateRow)
    ensures !row.archiveIndicator && row.archiveTimestamp.None? && row.versionNumber.None?
    ensures Key(row) == (dto.masterTemplateId, dto.templateVersion)
    ensures row.template.createdTimestamp == if dto.createdTimestamp.Some? then dto.createdTimestamp else Some(now)
    ensures row.template.updatedTimestamp == Some(now)
    ensures row.template.(createdTimestamp := dto.createdTimestamp, updatedTimestamp := dto.updatedTimestamp) == dto
  {
    var created := if dto.createdTimestamp.Some? then dto.createdTimestamp else Some(now);
    TemplateRow(dto.(createdTimestamp := created, updatedTimestamp := Some(now)), false, None, None)
  }

  /** toDto after toEntity gives back a DTO that already had both timestamps set to those values. */
  lemma ToEntityRoundTrip(dto: MasterTemplate, now: Timestamp)
    requires dto.createdTimestamp.Some? && dto.updatedTimestamp == Some(now)
    ensures ToDto(ToEntity(dto, now)) == dto
  {
  }

  /** What the store answers for a key, as a DTO. */
  function StoreView(rows: seq<TemplateRow>, id: Uuid, v: int): (r: Option<MasterTemplate>)
    ensures r.Some? <==> exists x :: x in rows && Live(x) && Key(x) == (id, v)
    ensures r.Some? ==> r.value.masterTemplateId == id && r.value.templateVersion == v
  {
    match FindByMasterTemplateIdAndVersion(rows, id, v)
    case None => None
    case Some(row) => Some(ToDto(row))
  }

  function Dtos(rows: seq<TemplateRow>): (r: seq<MasterTemplate>)
    ensures |r| == |rows| && forall i :: 0 <= i < |rows| ==> r[i] == rows[i].template
  {
    Map(rows, ToDto)
  }

  /** created_timestamp DESC (NULLs first) on the DTOs, the order of the filtered list. */
  predicate DtoCreatedDesc(a: MasterTemplate, b: MasterTemplate) {
    NewestFirst(a.createdTimestamp, b.createdTimestamp)
  }

  /**
    The page at LIMIT limit OFFSET offset of the filtered list: the window of an
    ordering, newest created first, of the records of the rows that match the
    filters. So no record occurs more often than among those records, and the
    page is itself newest created first.
   */
  ghost predicate IsFilteredPage(rows: seq<TemplateRow>, lineOfBusiness: Option<string>, templateType: Option<string>,
                                 activeFlag: Option<bool>, communicationType: Option<string>,
                                 limit: int, offset: int, page: seq<MasterTemplate>)
  {
    var matching := Dtos(Filter(rows, Matching(lineOfBusiness, templateType, activeFlag, communicationType)));
    && limit >= 0 && offset >= 0
    && (exists s :: multiset(s) == multiset(matching) && SortedBy(s, DtoCreatedDesc) && page == Window(s, limit, offset))
    && multiset(page) <= multiset(matching)
    && SortedBy(page, DtoCreatedDesc)
  }

  /**
    The DTOs of the repository page at LIMIT limit OFFSET offset are that page
    of the filtered list, min(limit, count - offset) of them.
   */
  lemma FilteredPageDtos(rows: seq<TemplateRow>, lineOfBusiness: Option<string>, templateType: Option<string>,
                         activeFlag: Option<bool>, communicationType: Option<string>, limit: int, offset: int)
    requires limit >= 0 && offset >= 0
    ensures IsFilteredPage(rows, lineOfBusiness, templateType, activeFlag, communicationType, limit, offset,
                           Dtos(TemplateRepo.FindWithFilters(rows, lineOfBusiness, templateType, activeFlag,
                                                             communicationType, limit, offset).value))
    ensures var total := TemplateRepo.CountWithFilters(rows, lineOfBusiness, templateType, activeFlag, communicationType);
            |Dtos(TemplateRepo.FindWithFilters(rows, lineOfBusiness, templateType, activeFlag, communicationType,
                                               limit, offset).value)|
            == if offset >= total then 0 else Min(limit, total - offset)
  {
    CreatedDescIsTotal();
    var f := Filter(rows, Matching(lineOfBusiness, templateType, activeFlag, communicationType));
    var s := Sort(f, CreatedDesc);
    var p := TemplateRepo.FindWithFilters(rows, lineOfBusiness, templateType, activeFlag, communicationType,
                                          limit, offset).value;
    assert p == Window(s, limit, offset);
    MapKeepsPermutation(s, f, ToDto);
    MapWindow(s, ToDto, limit, offset);
    assert SortedBy(Dtos(s), DtoCreatedDesc);
    var page := Window(Dtos(s), limit, offset);
    assert multiset(page) <= multiset(Dtos(f));
    assert SortedBy(page, DtoCreatedDesc) by {
      forall i, j | 0 <= i < j < |page| ensures DtoCreatedDesc(page[i], page[j]) {
        assert page[i] == Dtos(s)[offset + i] && page[j] == Dtos(s)[offset + j];
      }
    }
  }

  /** Every record of a page of the filtered list is the record of a stored row that matches the filters. */
  lemma {:induction false} MatchingRecords(rows: seq<TemplateRow>, lineOfBusiness: Option<string>,
                                           templateType: Option<string>, activeFlag: Option<bool>,
                                           communicationType: Option<string>, limit: int, offset: int,
                                           page: seq<MasterTemplate>)
    requires IsFilteredPage(rows, lineOfBusiness, templateType, activeFlag, communicationType, limit, offset, page)
    ensures forall t :: t in page ==>
              exists x :: x in rows && x.template == t
                          && MatchesFilters(x, lineOfBusiness, templateType, activeFlag, communicationType)
  {
    var f := Filter(rows, Matching(lineOfBusiness, templateType, activeFlag, communicationType));
    forall t | t in page
      ensures exists x :: x in rows && x.template == t
                       && MatchesFilters(x, lineOfBusiness, templateType, activeFlag, communicationType)
    {
      assert t in multiset(Dtos(f));
      var i :| 0 <= i < |Dtos(f)| && Dtos(f)[i] == t;
      assert f[i] in f;
    }
  }

  /** A cache entry is filed under its own key and equals the store's answer for that key. */
  ghost predicate EntryIsCurrent(rows: seq<TemplateRow>, k: string, c: MasterTemplate) {
    k == BuildCacheKey(c.masterTemplateId, c.templateVersion)
    && StoreView(rows, c.masterTemplateId, c.templateVersion) == Some(c)
  }

  /** A by-id entry is filed under its own id and equals the store's answer for its version. */
  ghost predicate ByIdEntryIsCurrent(rows: seq<TemplateRow>, id: Uuid, c: MasterTemplate) {
    c.masterTemplateId == id && StoreView(rows, id, c.templateVersion) == Some(c)
  }

  /** Both caches hold only what the store would answer for the cached DTO's own key. */
  ghost predicate Coherent(rows: seq<TemplateRow>, cache: map<string, MasterTemplate>, byId: map<Uuid, MasterTemplate>) {
    && (forall k :: k in cache ==> EntryIsCurrent(rows, k, cache[k]))
    && (forall id :: id in byId ==> ByIdEntryIsCurrent(rows, id, byId[id]))
  }

  /** Entries may vanish at any time (expiry, size eviction, invalidation) without breaking coherence. */
  lemma EvictionKeepsCoherence(rows: seq<TemplateRow>, cache: map<string, MasterTemplate>,
                               byId: map<Uuid, MasterTemplate>, keys: set<string>, ids: set<Uuid>)
    requires Coherent(rows, cache, byId)
    ensures Coherent(rows, cache - keys, byId - ids)
  {
  }

  /** A cache hit answers what the store would answer. */
  lemma HitIsStoreView(rows: seq<TemplateRow>, cache: map<string, MasterTemplate>,
                       byId: map<Uuid, MasterTemplate>, id: Uuid, v: int)
    requires Coherent(rows, cache, byId)
    requires BuildCacheKey(id, v) in cache
    ensures StoreView(rows, id, v) == Some(cache[BuildCacheKey(id, v)])
  {
    var c := cache[BuildCacheKey(id, v)];
    assert EntryIsCurrent(rows, BuildCacheKey(id, v), c);
    CacheKeyInjective(id, v, c.masterTemplateId, c.templateVersion);
  }

  /** Writing a live row through to both caches keeps them coherent. */
  lemma SaveKeepsCoherence(rows: seq<TemplateRow>, cache: map<string, MasterTemplate>,
                           byId: map<Uuid, MasterTemplate>, e: TemplateRow)
    requires Coherent(rows, cache, byId)
    requires Live(e)
    ensures Coherent(UpsertBy(rows, e, Key),
                     cache[BuildCacheKey(e.template.masterTemplateId, e.template.templateVersion) := e.template],
                     byId[e.template.masterTemplateId := e.template])
  {
    SaveKeepsKeyCache(rows, cache, byId, e);
    SaveKeepsIdCache(rows, cache, byId, e);
  }

  /** The "id:version" half of SaveKeepsCoherence. */
  lemma SaveKeepsKeyCache(rows: seq<TemplateRow>, cache: map<string, MasterTemplate>,
                          byId: map<Uuid, MasterTemplate>, e: TemplateRow)
    requires Coherent(rows, cache, byId)
    requires Live(e)
    ensures var cache' := cache[BuildCacheKey(e.template.masterTemplateId, e.template.templateVersion) := e.template];
            forall k :: k in cache' ==> EntryIsCurrent(UpsertBy(rows, e, Key), k, cache'[k])
  {
    var rows' := UpsertBy(rows, e, Key);
    var key := BuildCacheKey(e.template.masterTemplateId, e.template.templateVersion);
    var cache' := cache[key := e.template];
    forall k | k in cache' ensures EntryIsCurrent(rows', k, cache'[k]) {
      if k == key {
        SaveThenFind(rows, e);
      } else {
        assert EntryIsCurrent(rows, k, cache[k]);
        SaveKeepsOtherKeys(rows, e, cache[k].masterTemplateId, cache[k].templateVersion);
      }
    }
  }

  /** The by-id half of SaveKeepsCoherence. */
  lemma SaveKeepsIdCache(rows: seq<TemplateRow>, cache: map<string, MasterTemplate>,
                         byId: map<Uuid, MasterTemplate>, e: TemplateRow)
    requires Coherent(rows, cache, byId)
    requires Live(e)
    ensures var byId' := byId[e.template.masterTemplateId := e.template];
            forall i :: i in byId' ==> ByIdEntryIsCurrent(UpsertBy(rows, e, Key), i, byId'[i])
  {
    var rows' := UpsertBy(rows, e, Key);
    var id := e.template.masterTemplateId;
    var byId' := byId[id := e.template];
    forall i | i in byId' ensures ByIdEntryIsCurrent(rows', i, byId'[i]) {
      if i == id {
        SaveThenFind(rows, e);
      } else {
        assert ByIdEntryIsCurrent(rows, i, byId[i]);
        SaveKeepsOtherKeys(rows, e, i, byId[i].templateVersion);
      }
    }
  }

  /** Archiving a key and evicting it from both caches keeps them coherent. */
  lemma ArchiveKeepsCoherence(rows: seq<TemplateRow>, cache: map<string, MasterTemplate>,
                              byId: map<Uuid, MasterTemplate>, id: Uuid, v: int, updatedBy: string, now: Timestamp)
    requires Coherent(rows, cache, byId)
    ensures Coherent(UpdateWhere(rows, HasKey(id, v), Archived(updatedBy, now)),
                     cache - {BuildCacheKey(id, v)}, byId - {id})
  {
    var rows' := UpdateWhere(rows, HasKey(id, v), Archived(updatedBy, now));
    var cache' := cache - {BuildCacheKey(id, v)};
    var byId' := byId - {id};
    forall k | k in cache' ensures EntryIsCurrent(rows', k, cache'[k]) {
      assert EntryIsCurrent(rows, k, cache[k]);
      ArchiveKeepsOtherKeys(rows, id, v, updatedBy, now, cache[k].masterTemplateId, cache[k].templateVersion);
    }
    forall i | i in byId' ensures ByIdEntryIsCurrent(rows', i, byId'[i]) {
      assert ByIdEntryIsCurrent(rows, i, byId[i]);
      ArchiveKeepsOtherKeys(rows, id, v, updatedBy, now, i, byId[i].templateVersion);
    }
  }

  /** A key with no row at all cannot be cached. */
  lemma UncachedWhenAbsent(rows: seq<TemplateRow>, cache: map<string, MasterTemplate>,
                           byId: map<Uuid, MasterTemplate>, id: Uuid, v: int)
    requires Coherent(rows, cache, byId)
    requires Count(rows, HasKey(id, v)) == 0
    ensures BuildCacheKey(id, v) !in cache
  {
    if BuildCacheKey(id, v) in cache {
      HitIsStoreView(rows, cache, byId, id, v);
      assert false;
    }
  }

  /** When the store answers for a key, the archive UPDATE affects at least that row. */
  lemma FoundMeansAffected(rows: seq<TemplateRow>, id: Uuid, v: int)
    requires StoreView(rows, id, v).Some?
    ensures Count(rows, HasKey(id, v)) > 0
  {
    var x := FindByMasterTemplateIdAndVersion(rows, id, v).value;
    assert x in rows && HasKey(id, v)(x);
  }

  class MasterTemplateDao {
    const repo: MasterTemplateRepository
    var templateCache: map<string, MasterTemplate>
    var templateByIdCache: map<Uuid, MasterTemplate>

    ghost predicate Valid()
      reads this, repo
    {
      (repo as object) != this && repo.Valid() && Coherent(repo.rows, templateCache, templateByIdCache)
    }

    constructor (repository: MasterTemplateRepository)
      requires repository.Valid()
      ensures Valid() && repo == repository
      ensures templateCache == map[] && templateByIdCache == map[]
    {
      repo := repository;
      templateCache := map[];
      templateByIdCache := map[];
    }

    /** Read-through lookup: a hit is answered from the cache, a found row is cached, not-found is not. */
    method FindByIdAndVersion(id: Uuid, v: int) returns (r: Option<MasterTemplate>)
      requires Valid()
      modifies this
      ensures Valid()
      ensures r == StoreView(repo.rows, id, v)
      ensures templateByIdCache == old(templateByIdCache)
      ensures BuildCacheKey(id, v) in old(templateCache) ==>
                r == Some(old(templateCache)[BuildCacheKey(id, v)]) && templateCache == old(templateCache)
      ensures BuildCacheKey(id, v) !in old(templateCache) && r.Some? ==>
                templateCache == old(templateCache)[BuildCacheKey(id, v) := r.value]
      ensures r.None? ==> templateCache == old(templateCache)
    {
      var key := BuildCacheKey(id, v);
      if key in templateCache {
        HitIsStoreView(repo.rows, templateCache, templateByIdCache, id, v);
        r := Some(templateCache[key]);
      } else {
        var found := FindByMasterTemplateIdAndVersion(repo.rows, id, v);
        if found.Some? {
          r := Some(ToDto(found.value));
          templateCache := templateCache[key := r.value];
        } else {
          r := None;
        }
      }
    }

    /** save: stores the row and writes its DTO through to both caches. */
    method Save(entity: TemplateRow) returns (dto: MasterTemplate)
      requires Valid()
      requires Live(entity)
      modifies this, repo
      ensures Valid()
      ensures repo.rows == UpsertBy(old(repo.rows), entity, Key)
      ensures dto == entity.template
      ensures templateCache == old(templateCache)[BuildCacheKey(dto.masterTemplateId, dto.templateVersion) := dto]
      ensures templateByIdCache == old(templateByIdCache)[dto.masterTemplateId := dto]
    {
      SaveKeepsCoherence(repo.rows, templateCache, templateByIdCache, entity);
      var saved := repo.Save(entity);
      dto := ToDto(saved);
      templateCache := templateCache[BuildCacheKey(dto.masterTemplateId, dto.templateVersion) := dto];
      templateByIdCache := templateByIdCache[dto.masterTemplateId := dto];
    }

    /** update: the same write-through as save. */
    method Update(entity: TemplateRow) returns (dto: MasterTemplate)
      requires Valid()
      requires Live(entity)
      modifies this, repo
      ensures Valid()
      ensures repo.rows == UpsertBy(old(repo.rows), entity, Key)
      ensures dto == entity.template
      ensures templateCache == old(templateCache)[BuildCacheKey(dto.masterTemplateId, dto.templateVersion) := dto]
      ensures templateByIdCache == old(templateByIdCache)[dto.masterTemplateId := dto]
    {
      dto := Save(entity);
    }

    /** archiveTemplate: archives the key; both caches lose the key only when a row was affected. */
    method ArchiveTemplate(id: Uuid, v: int, updatedBy: string, now: Timestamp) returns (count: int)
      requires Valid()
      modifies this, repo
      ensures Valid()
      ensures repo.rows == UpdateWhere(old(repo.rows), HasKey(id, v), Archived(updatedBy, now))
      ensures count == Count(old(repo.rows), HasKey(id, v))
      ensures StoreView(old(repo.rows), id, v).Some? ==> count > 0
      ensures count > 0 ==>
                templateCache == old(templateCache) - {BuildCacheKey(id, v)}
                && templateByIdCache == old(templateByIdCache) - {id}
      ensures count == 0 ==>
                templateCache == old(templateCache) && templateByIdCache == old(templateByIdCache)
                && repo.rows == old(repo.rows)
      ensures BuildCacheKey(id, v) !in templateCache
      ensures StoreView(repo.rows, id, v).None?
    {
      ArchiveKeepsCoherence(repo.rows, templateCache, templateByIdCache, id, v, updatedBy, now);
      ArchiveThenNotFound(repo.rows, id, v, updatedBy, now);
      if StoreView(repo.rows, id, v).Some? {
        FoundMeansAffected(repo.rows, id, v);
      }
      if Count(repo.rows, HasKey(id, v)) == 0 {
        UncachedWhenAbsent(repo.rows, templateCache, templateByIdCache, id, v);
      }
      ghost var cache, byId := templateCache, templateByIdCache;
      count := repo.ArchiveTemplateVersion(id, v, updatedBy, now);
      assert templateCache == cache && templateByIdCache == byId;  // the repository call touches only the repository
      if count > 0 {
        InvalidateCache(id, v);
      }
    }

    /** invalidateCache: removes exactly the "id:version" entry and the id entry. */
    method InvalidateCache(id: Uuid, v: int)
      modifies this
      ensures templateCache == old(templateCache) - {BuildCacheKey(id, v)}
      ensures templateByIdCache == old(templateByIdCache) - {id}
      ensures old(Valid()) ==> Valid()
    {
      if Valid() {
        EvictionKeepsCoherence(repo.rows, templateCache, templateByIdCache, {BuildCacheKey(id, v)}, {id});
      }
      templateCache := templateCache - {BuildCacheKey(id, v)};
      templateByIdCache := templateByIdCache - {id};
    }

    /** invalidateAllCache: both caches become empty. */
    method InvalidateAllCache()
      requires Valid()
      modifies this
      ensures Valid()
      ensures templateCache == map[] && templateByIdCache == map[]
    {
      templateCache := map[];
      templateByIdCache := map[];
    }

    /** findWithFilters: page `page` of `size` rows, i.e. the repository window at offset page * size. */
    method FindWithFilters(lineOfBusiness: Option<string>, templateType: Option<string>, activeFlag: Option<bool>,
                           communicationType: Option<string>, page: int, size: int)
      returns (r: Option<seq<MasterTemplate>>)
      requires Valid()
      ensures r.None? <==> size < 0 || page * size < 0
      ensures r.Some? ==>
                var total := TemplateRepo.CountWithFilters(repo.rows, lineOfBusiness, templateType, activeFlag, communicationType);
                |r.value| == if page * size >= total then 0 else Min(size, total - page * size)
      ensures r.Some? ==> IsFilteredPage(repo.rows, lineOfBusiness, templateType, activeFlag, communicationType,
                                         size, page * size, r.value)
    {
      if size < 0 || page * size < 0 {
        return None;
      }
      var offset := page * size;
      ghost var total := TemplateRepo.CountWithFilters(repo.rows, lineOfBusiness, templateType, activeFlag,
                                                       communicationType);
      var rows := TemplateRepo.FindWithFilters(repo.rows, lineOfBusiness, templateType, activeFlag,
                                               communicationType, size, offset);
      FilteredPageDtos(repo.rows, lineOfBusiness, templateType, activeFlag, communicationType, size, offset);
      r := Some(Dtos(rows.value));
      assert r.value == Dtos(rows.value);
      assert |r.value| == if offset >= total then 0 else Min(size, total - offset);
    }

    method CountWithFilters(lineOfBusiness: Option<string>, templateType: Option<string>, activeFlag: Option<bool>,
                            communicationType: Option<string>) returns (n: nat)
      requires Valid()
      ensures n == TemplateRepo.CountWithFilters(repo.rows, lineOfBusiness, templateType, activeFlag, communicationType)
    {
      n := TemplateRepo.CountWithFilters(repo.rows, lineOfBusiness, templateType, activeFlag, communicationType);
    }

    method FindAllVersionsById(id: Uuid) returns (r: seq<MasterTemplate>)
      requires Valid()
      ensures r == Dtos(FindAllVersionsByMasterTemplateId(repo.rows, id))
    {
      r := Dtos(FindAllVersionsByMasterTemplateId(repo.rows, id));
    }

    method GetNextVersionNumber(id: Uuid) returns (n: int)
      requires Valid()
      ensures n == TemplateRepo.GetNextVersionNumber(repo.rows, id)
    {
      n := TemplateRepo.GetNextVersionNumber(repo.rows, id);
    }

    method FindByTypeAndVersion(templateType: string, v: int) returns (r: Option<MasterTemplate>)
      requires Valid()
      ensures r.None? <==> FindByTemplateTypeAndVersion(repo.rows, templateType, v).None?
      ensures r.Some? ==> r.value == ToDto(FindByTemplateTypeAndVersion(repo.rows, templateType, v).value)
    {
      var row := FindByTemplateTypeAndVersion(repo.rows, templateType, v);
      r := if row.Some? then Some(ToDto(row.value)) else None;
    }

    method FindActiveTemplatesByLineOfBusiness(lineOfBusiness: string, d: EpochMillis) returns (r: seq<MasterTemplate>)
      requires Valid()
      ensures r == Dtos(TemplateRepo.FindActiveTemplatesByLineOfBusiness(repo.rows, lineOfBusiness, d))
    {
      r := Dtos(TemplateRepo.FindActiveTemplatesByLineOfBusiness(repo.rows, lineOfBusiness, d));
    }

    method ExistsByTemplateType(templateType: string) returns (b: bool)
      requires Valid()
      ensures b == TemplateRepo.ExistsByTemplateType(repo.rows, templateType)
    {
      b := TemplateRepo.ExistsByTemplateType(repo.rows, templateType);
    }
  }
}
