/**
  The template_vendor_mapping table and its queries: lookups by id, by
  template, routing candidates in priority order, the filtered list and its
  count, the duplicate check, and the archive and health-status UPDATEs.
 */
module VendorRepo {
  import opened Wrappers
  import opened Identifiers
  import opened Records
  import opened Sequences

  /** Primary key of a row: template_vendor_id. */
  function VendorKey(row: VendorRow): Uuid {
    row.mapping.templateVendorId
  }

  predicate Live(row: VendorRow) {
    !row.archiveIndicator
  }

  function HasId(id: Uuid): VendorRow -> bool {
    row => VendorKey(row) == id
  }

  function LiveWithId(id: Uuid): VendorRow -> bool {
    row => Live(row) && VendorKey(row) == id
  }

  function LiveOfTemplate(templateId: Uuid): VendorRow -> bool {
    row => Live(row) && row.mapping.masterTemplateId == templateId
  }

  function LiveOfTemplateVersion(templateId: Uuid, v: int): VendorRow -> bool {
    row => Live(row) && row.mapping.masterTemplateId == templateId && row.mapping.templateVersion == v
  }

  function LiveOfTemplateAndType(templateId: Uuid, vendorType: string): VendorRow -> bool {
    row => Live(row) && row.mapping.masterTemplateId == templateId && row.mapping.vendorType == Some(vendorType)
  }

  /** master_template_id, template_version and vendor_type all match. */
  predicate ForSlot(row: VendorRow, templateId: Uuid, v: int, vendorType: string) {
    && row.mapping.masterTemplateId == templateId
    && row.mapping.templateVersion == v
    && row.mapping.vendorType == Some(vendorType)
  }

  /** The primary-vendor WHERE clause. */
  predicate IsPrimaryFor(row: VendorRow, templateId: Uuid, v: int, vendorType: string) {
    && ForSlot(row, templateId, v, vendorType)
    && row.mapping.primaryFlag == Some(true)
    && row.mapping.activeFlag == Some(true)
    && Live(row)
  }

  /** vendor_status IS NULL OR vendor_status IN ('ACTIVE', 'DEGRADED') */
  predicate Routable(m: VendorMapping) {
    m.vendorStatus.None? || m.vendorStatus == Some("ACTIVE") || m.vendorStatus == Some("DEGRADED")
  }

  /** The routing WHERE clause. */
  predicate IsRoutingCandidate(row: VendorRow, templateId: Uuid, v: int, vendorType: string) {
    && ForSlot(row, templateId, v, vendorType)
    && row.mapping.activeFlag == Some(true)
    && Live(row)
    && Routable(row.mapping)
  }

  function PrimaryFor(templateId: Uuid, v: int, vendorType: string): VendorRow -> bool {
    row => IsPrimaryFor(row, templateId, v, vendorType)
  }

  function RoutingFor(templateId: Uuid, v: int, vendorType: string): VendorRow -> bool {
    row => IsRoutingCandidate(row, templateId, v, vendorType)
  }

  /** The WHERE clause shared by the filtered list and its count; a None filter is ignored. */
  predicate MatchesFilters(row: VendorRow, templateId: Option<Uuid>, vendorType: Option<string>,
                           vendor: Option<string>, activeFlag: Option<bool>)
  {
    && Live(row)
    && (templateId.None? || row.mapping.masterTemplateId == templateId.value)
    && (vendorType.None? || row.mapping.vendorType == vendorType)
    && (vendor.None? || row.mapping.vendor == vendor)
    && (activeFlag.None? || row.mapping.activeFlag == activeFlag)
  }

  function Matching(templateId: Option<Uuid>, vendorType: Option<string>, vendor: Option<string>,
                    activeFlag: Option<bool>): VendorRow -> bool
  {
    row => MatchesFilters(row, templateId, vendorType, vendor, activeFlag)
  }

  /** The duplicate WHERE clause: same template version, vendor and vendor type, not archived. */
  predicate IsDuplicateOf(row: VendorRow, templateId: Uuid, v: int, vendor: string, vendorType: string) {
    && ForSlot(row, templateId, v, vendorType)
    && row.mapping.vendor == Some(vendor)
    && Live(row)
  }

  function DuplicateOf(templateId: Uuid, v: int, vendor: string, vendorType: string): VendorRow -> bool {
    row => IsDuplicateOf(row, templateId, v, vendor, vendorType)
  }

  /** ORDER BY priority_order ASC, where PostgreSQL puts NULLs last. */
  predicate PriorityAsc(a: VendorRow, b: VendorRow) {
    match (a.mapping.priorityOrder, b.mapping.priorityOrder)
    case (_, None) => true
    case (None, Some(_)) => false
    case (Some(x), Some(y)) => x <= y
  }

  /** ORDER BY created_timestamp DESC, where PostgreSQL puts NULLs first. */
  predicate CreatedDesc(a: VendorRow, b: VendorRow) {
    NewestFirst(a.mapping.createdTimestamp, b.mapping.createdTimestamp)
  }

  lemma PriorityAscIsTotal()
    ensures TotalPreorder(PriorityAsc)
  {
  }

  lemma CreatedDescIsTotal()
    ensures TotalPreorder(CreatedDesc)
  {
  }

  // ---------------------------------------------------------------- queries

  /** The non-archived row with this id. */
  function FindByVendorId(rows: seq<VendorRow>, id: Uuid): (r: Option<VendorRow>)
    ensures r.Some? ==> r.value in rows && Live(r.value) && VendorKey(r.value) == id
    ensures r.None? <==> forall x :: x in rows ==> !(Live(x) && VendorKey(x) == id)
  {
    var c := Filter(rows, LiveWithId(id));
    if c == [] then None else Some(c[0])
  }

  function FindByMasterTemplateId(rows: seq<VendorRow>, templateId: Uuid): (r: seq<VendorRow>)
    ensures forall x :: x in r <==> x in rows && Live(x) && x.mapping.masterTemplateId == templateId
    ensures multiset(r) == multiset(Filter(rows, LiveOfTemplate(templateId)))
    ensures SortedBy(r, PriorityAsc)
  {
    PriorityAscIsTotal();
    Sort(Filter(rows, LiveOfTemplate(templateId)), PriorityAsc)
  }

  function FindByMasterTemplateIdAndVersion(rows: seq<VendorRow>, templateId: Uuid, v: int): (r: seq<VendorRow>)
    ensures forall x :: x in r <==> x in rows && Live(x) && x.mapping.masterTemplateId == templateId
                                    && x.mapping.templateVersion == v
    ensures multiset(r) == multiset(Filter(rows, LiveOfTemplateVersion(templateId, v)))
    ensures SortedBy(r, PriorityAsc)
  {
    PriorityAscIsTotal();
    Sort(Filter(rows, LiveOfTemplateVersion(templateId, v)), PriorityAsc)
  }

  function FindByMasterTemplateIdAndVendorType(rows: seq<VendorRow>, templateId: Uuid, vendorType: string)
    : (r: seq<VendorRow>)
    ensures forall x :: x in r <==> x in rows && Live(x) && x.mapping.masterTemplateId == templateId
                                    && x.mapping.vendorType == Some(vendorType)
    ensures multiset(r) == multiset(Filter(rows, LiveOfTemplateAndType(templateId, vendorType)))
    ensures SortedBy(r, PriorityAsc)
  {
    PriorityAscIsTotal();
    Sort(Filter(rows, LiveOfTemplateAndType(templateId, vendorType)), PriorityAsc)
  }

  /** A primary, active, non-archived mapping of the slot, if there is one. */
  function FindPrimaryVendorMapping(rows: seq<VendorRow>, templateId: Uuid, v: int, vendorType: string)
    : (r: Option<VendorRow>)
    ensures r.Some? ==> r.value in rows && IsPrimaryFor(r.value, templateId, v, vendorType)
    ensures r.None? <==> forall x :: x in rows ==> !IsPrimaryFor(x, templateId, v, vendorType)
  {
    var c := Filter(rows, PrimaryFor(templateId, v, vendorType));
    if c == [] then None else Some(c[0])
  }

  /**
    Routing candidates of a slot by ascending priority. Rows of equal priority
    come in an order the query leaves open; the contract leaves it open too.
   */
  function FindActiveVendorsForRouting(rows: seq<VendorRow>, templateId: Uuid, v: int, vendorType: string)
    : (r: seq<VendorRow>)
    ensures forall x :: x in r <==> x in rows && IsRoutingCandidate(x, templateId, v, vendorType)
    ensures multiset(r) == multiset(Filter(rows, RoutingFor(templateId, v, vendorType)))
    ensures SortedBy(r, PriorityAsc)
  {
    PriorityAscIsTotal();
    Sort(Filter(rows, RoutingFor(templateId, v, vendorType)), PriorityAsc)
  }

  function CountWithFilters(rows: seq<VendorRow>, templateId: Option<Uuid>, vendorType: Option<string>,
                            vendor: Option<string>, activeFlag: Option<bool>): (n: nat)
    ensures n == |Filter(rows, Matching(templateId, vendorType, vendor, activeFlag))|
    ensures n <= |rows|
    ensures n == 0 <==> forall x :: x in rows ==> !MatchesFilters(x, templateId, vendorType, vendor, activeFlag)
  {
    Count(rows, Matching(templateId, vendorType, vendor, activeFlag))
  }

  /**
    The filtered list, newest created first, LIMIT limit OFFSET offset. None is
    the store rejecting a negative LIMIT or OFFSET.
   */
  function FindWithFilters(rows: seq<VendorRow>, templateId: Option<Uuid>, vendorType: Option<string>,
                           vendor: Option<string>, activeFlag: Option<bool>, limit: int, offset: int)
    : (r: Option<seq<VendorRow>>)
    ensures r.None? <==> limit < 0 || offset < 0
    ensures r.Some? ==> forall x :: x in r.value ==>
              x in rows && MatchesFilters(x, templateId, vendorType, vendor, activeFlag)
    ensures r.Some? ==> multiset(r.value) <= multiset(Filter(rows, Matching(templateId, vendorType, vendor, activeFlag)))
    ensures r.Some? ==> SortedBy(r.value, CreatedDesc)
    ensures r.Some? ==> exists s :: && multiset(s) == multiset(Filter(rows, Matching(templateId, vendorType, vendor, activeFlag)))
                                    && SortedBy(s, CreatedDesc)
                                    && r.value == Window(s, limit, offset)
    ensures r.Some? ==>
              var total := CountWithFilters(rows, templateId, vendorType, vendor, activeFlag);
              |r.value| == if offset >= total then 0 else Min(limit, total - offset)
  {
    CreatedDescIsTotal();
    var sorted := Sort(Filter(rows, Matching(templateId, vendorType, vendor, activeFlag)), CreatedDesc);
    var r := Page(sorted, limit, offset);
    if r.Some? then
      assert forall x :: x in r.value ==> x in multiset(sorted);
      assert r.value == Window(sorted, limit, offset);
      r
    else
      r
  }

  /** COUNT(*) > 0 over the duplicate WHERE clause. */
  function ExistsDuplicateMapping(rows: seq<VendorRow>, templateId: Uuid, v: int, vendor: string, vendorType: string)
    : (b: bool)
    ensures b <==> exists x :: x in rows && IsDuplicateOf(x, templateId, v, vendor, vendorType)
  {
    Count(rows, DuplicateOf(templateId, v, vendor, vendorType)) > 0
  }

  /** SET archive_indicator = true, archive_timestamp = NOW(), updated_by, updated_timestamp = NOW(). */
  function ArchivedBy(updatedBy: string, now: Timestamp): VendorRow -> VendorRow {
    (row: VendorRow) => row.(archiveIndicator := true, archiveTimestamp := Some(now),
                             mapping := row.mapping.(updatedBy := Some(updatedBy), updatedTimestamp := Some(now)))
  }

  /** SET vendor_status, last_health_check = NOW(), last_health_status, updated_timestamp = NOW(). */
  function HealthUpdated(vendorStatus: Option<string>, healthStatus: Option<string>, now: Timestamp)
    : VendorRow -> VendorRow
  {
    (row: VendorRow) => row.(mapping := row.mapping.(vendorStatus := vendorStatus, lastHealthCheck := Some(now),
                                                     lastHealthStatus := healthStatus, updatedTimestamp := Some(now)))
  }

  /** b is a with at most the four health-update columns changed. */
  predicate DiffersOnlyInHealth(a: VendorRow, b: VendorRow) {
    && a.archiveIndicator == b.archiveIndicator
    && a.archiveTimestamp == b.archiveTimestamp
    && a.versionNumber == b.versionNumber
    && a.mapping.(vendorStatus := b.mapping.vendorStatus, lastHealthCheck := b.mapping.lastHealthCheck,
                  lastHealthStatus := b.mapping.lastHealthStatus, updatedTimestamp := b.mapping.updatedTimestamp)
       == b.mapping
  }

  // ---------------------------------------------------------------- lemmas

  /** Saving a live row makes it the lookup's answer for its id. */
  lemma {:induction false} SaveThenFind(rows: seq<VendorRow>, row: VendorRow)
    requires Live(row)
    ensures FindByVendorId(UpsertBy(rows, row, VendorKey), VendorKey(row)) == Some(row)
  {
    UpsertSameKey(rows, row, VendorKey, LiveWithId(VendorKey(row)));
  }

  /** Saving a row leaves the lookup of every other id as it was. */
  lemma {:induction false} SaveKeepsOtherIds(rows: seq<VendorRow>, row: VendorRow, id: Uuid)
    requires VendorKey(row) != id
    ensures FindByVendorId(UpsertBy(rows, row, VendorKey), id) == FindByVendorId(rows, id)
  {
    UpsertOtherKeys(rows, row, VendorKey, LiveWithId(id));
  }

  /** After archiving an id the lookup finds nothing under it. */
  lemma ArchiveThenNotFound(rows: seq<VendorRow>, id: Uuid, updatedBy: string, now: Timestamp)
    ensures FindByVendorId(UpdateWhere(rows, HasId(id), ArchivedBy(updatedBy, now)), id).None?
  {
  }

  /** Archiving an id leaves the lookup of every other id as it was. */
  lemma {:induction false} ArchiveKeepsOtherIds(rows: seq<VendorRow>, id: Uuid, updatedBy: string, now: Timestamp,
                                                other: Uuid)
    requires other != id
    ensures FindByVendorId(UpdateWhere(rows, HasId(id), ArchivedBy(updatedBy, now)), other)
         == FindByVendorId(rows, other)
  {
    FilterUpdateWhere(rows, HasId(id), ArchivedBy(updatedBy, now), LiveWithId(other));
  }

  /** A health update leaves the lookup of every other id as it was. */
  lemma {:induction false} HealthUpdateKeepsOtherIds(rows: seq<VendorRow>, id: Uuid, vendorStatus: Option<string>,
                                                     healthStatus: Option<string>, now: Timestamp, other: Uuid)
    requires other != id
    ensures FindByVendorId(UpdateWhere(rows, HasId(id), HealthUpdated(vendorStatus, healthStatus, now)), other)
         == FindByVendorId(rows, other)
  {
    FilterUpdateWhere(rows, HasId(id), HealthUpdated(vendorStatus, healthStatus, now), LiveWithId(other));
  }

  /** A health update changes nothing but the health columns, and only in the rows of its id. */
  lemma HealthUpdateFrame(rows: seq<VendorRow>, id: Uuid, vendorStatus: Option<string>,
                          healthStatus: Option<string>, now: Timestamp)
    ensures var r := UpdateWhere(rows, HasId(id), HealthUpdated(vendorStatus, healthStatus, now));
      && |r| == |rows|
      && (forall i :: 0 <= i < |rows| && VendorKey(rows[i]) != id ==> r[i] == rows[i])
      && (forall i :: 0 <= i < |rows| ==> DiffersOnlyInHealth(rows[i], r[i]))
      && (forall i :: 0 <= i < |rows| ==> r[i].mapping.vendorMappingVersion == rows[i].mapping.vendorMappingVersion)
      && (forall i :: 0 <= i < |rows| && VendorKey(rows[i]) == id ==>
            r[i].mapping.vendorStatus == vendorStatus && r[i].mapping.lastHealthStatus == healthStatus
            && r[i].mapping.lastHealthCheck == Some(now))
  {
  }

  /** Routing never offers a row whose status is neither unset, ACTIVE nor DEGRADED, nor a non-active one. */
  lemma RoutingExcludesUnavailable(rows: seq<VendorRow>, templateId: Uuid, v: int, vendorType: string, x: VendorRow)
    requires x in FindActiveVendorsForRouting(rows, templateId, v, vendorType)
    ensures x.mapping.activeFlag == Some(true) && !x.archiveIndicator
    ensures x.mapping.vendorStatus != Some("INACTIVE") && x.mapping.vendorStatus != Some("SUSPENDED")
  {
  }

  /** In routing order, a mapping without a priority never precedes one with a priority. */
  lemma RoutingUnprioritisedLast(rows: seq<VendorRow>, templateId: Uuid, v: int, vendorType: string, i: int, j: int)
    requires var r := FindActiveVendorsForRouting(rows, templateId, v, vendorType); 0 <= i < j < |r|
    ensures var r := FindActiveVendorsForRouting(rows, templateId, v, vendorType);
      r[i].mapping.priorityOrder.None? ==> r[j].mapping.priorityOrder.None?
  {
    var r := FindActiveVendorsForRouting(rows, templateId, v, vendorType);
    assert PriorityAsc(r[i], r[j]);
  }

  // ---------------------------------------------------------------- the table

  /** The table: rows change only through save and the two UPDATEs. */
  class TemplateVendorMappingRepository {
    var rows: seq<VendorRow>

    ghost predicate Valid()
      reads this
    {
      UniqueBy(rows, VendorKey)
    }

    constructor ()
      ensures Valid() && rows == []
    {
      rows := [];
    }

    /** save: stores the row under its id (insert or replace) and returns it. */
    method Save(row: VendorRow) returns (saved: VendorRow)
      requires Valid()
      modifies this
      ensures Valid()
      ensures rows == UpsertBy(old(rows), row, VendorKey)
      ensures saved == row
    {
      UpsertKeepsUnique(rows, row, VendorKey);
      rows := UpsertBy(rows, row, VendorKey);
      saved := row;
    }

    /** archiveVendorMapping: archives every row with the id, archived or not; returns the row count. */
    method ArchiveVendorMapping(id: Uuid, updatedBy: string, now: Timestamp) returns (count: int)
      requires Valid()
      modifies this
      ensures Valid()
      ensures rows == UpdateWhere(old(rows), HasId(id), ArchivedBy(updatedBy, now))
      ensures count == Count(old(rows), HasId(id))
      ensures count == 0 ==> rows == old(rows)
    {
      count := Count(rows, HasId(id));
      if count == 0 {
        UpdateWhereNoMatch(rows, HasId(id), ArchivedBy(updatedBy, now));
      }
      UpdateWhereKeepsUnique(rows, HasId(id), ArchivedBy(updatedBy, now), VendorKey);
      rows := UpdateWhere(rows, HasId(id), ArchivedBy(updatedBy, now));
    }

    /** updateVendorStatus: sets the health columns of every row with the id; returns the row count. */
    method UpdateVendorStatus(id: Uuid, vendorStatus: Option<string>, healthStatus: Option<string>, now: Timestamp)
      returns (count: int)
      requires Valid()
      modifies this
      ensures Valid()
      ensures rows == UpdateWhere(old(rows), HasId(id), HealthUpdated(vendorStatus, healthStatus, now))
      ensures count == Count(old(rows), HasId(id))
      ensures count == 0 ==> rows == old(rows)
    {
      count := Count(rows, HasId(id));
      if count == 0 {
        UpdateWhereNoMatch(rows, HasId(id), HealthUpdated(vendorStatus, healthStatus, now));
      }
      UpdateWhereKeepsUnique(rows, HasId(id), HealthUpdated(vendorStatus, healthStatus, now), VendorKey);
      rows := UpdateWhere(rows, HasId(id), HealthUpdated(vendorStatus, healthStatus, now));
    }
  }
}
