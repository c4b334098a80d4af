/**
  The master_template_definition table and its queries. Each SELECT is a pure
  selection over the rows; the archive UPDATE and the inherited save change
  the rows held by a MasterTemplateRepository.
 */
module TemplateRepo {
  import opened Wrappers
  import opened Identifiers
  import opened Records
  import opened Sequences

  /** Primary key of a row: (master_template_id, template_version). */
  function Key(row: TemplateRow): (Uuid, int) {
    (row.template.masterTemplateId, row.template.templateVersion)
  }

  predicate Live(row: TemplateRow) {
    !row.archiveIndicator
  }

  /** (start_date IS NULL OR start_date <= d) AND (end_date IS NULL OR end_date >= d) */
  predicate InDateWindow(t: MasterTemplate, d: EpochMillis) {
    && (t.startDate.None? || t.startDate.value <= d)
    && (t.endDate.None? || t.endDate.value >= d)
  }

  /** active_flag = true AND archive_indicator = false AND the date window holds. */
  predicate ActiveAt(row: TemplateRow, d: EpochMillis) {
    row.template.activeFlag == Some(true) && Live(row) && InDateWindow(row.template, d)
  }

  function HasKey(id: Uuid, v: int): TemplateRow -> bool {
    row => Key(row) == (id, v)
  }

  function LiveWithKey(id: Uuid, v: int): TemplateRow -> bool {
    row => Live(row) && Key(row) == (id, v)
  }

  function LiveOfTemplate(id: Uuid): TemplateRow -> bool {
    row => Live(row) && row.template.masterTemplateId == id
  }

  function LiveOfType(templateType: string): TemplateRow -> bool {
    row => Live(row) && row.template.templateType == Some(templateType)
  }

  function ActiveOfType(templateType: string, d: EpochMillis): TemplateRow -> bool {
    row => ActiveAt(row, d) && row.template.templateType == Some(templateType)
  }

  function LiveOfTypeAndVersion(templateType: string, v: int): TemplateRow -> bool {
    row => Live(row) && row.template.templateType == Some(templateType) && row.template.templateVersion == v
  }

  /** A line-of-business condition also admits the shared 'ENTERPRISE' templates. */
  predicate LineOfBusinessAdmits(row: TemplateRow, lineOfBusiness: string) {
    row.template.lineOfBusiness == Some(lineOfBusiness) || row.template.lineOfBusiness == Some("ENTERPRISE")
  }

  /** The WHERE clause shared by the filtered list and its count; a None filter is ignored. */
  predicate MatchesFilters(row: TemplateRow, lineOfBusiness: Option<string>, templateType: Option<string>,
                           activeFlag: Option<bool>, communicationType: Option<string>)
  {
    && Live(row)
    && (lineOfBusiness.None? || LineOfBusinessAdmits(row, lineOfBusiness.value))
    && (templateType.None? || row.template.templateType == templateType)
    && (activeFlag.None? || row.template.activeFlag == activeFlag)
    && (communicationType.None? || row.template.communicationType == communicationType)
  }

  function Matching(lineOfBusiness: Option<string>, templateType: Option<string>,
                    activeFlag: Option<bool>, communicationType: Option<string>): TemplateRow -> bool
  {
    row => MatchesFilters(row, lineOfBusiness, templateType, activeFlag, communicationType)
  }

  /** ORDER BY template_version DESC */
  predicate VersionDesc(a: TemplateRow, b: TemplateRow) {
    a.template.templateVersion >= b.template.templateVersion
  }

  /** ORDER BY created_timestamp DESC, where PostgreSQL puts NULLs first. */
  predicate CreatedDesc(a: TemplateRow, b: TemplateRow) {
    NewestFirst(a.template.createdTimestamp, b.template.createdTimestamp)
  }

  lemma VersionDescIsTotal()
    ensures TotalPreorder(VersionDesc)
  {
  }

  lemma CreatedDescIsTotal()
    ensures TotalPreorder(CreatedDesc)
  {
  }

  // ---------------------------------------------------------------- queries

  /** The non-archived row with this key. */
  function FindByMasterTemplateIdAndVersion(rows: seq<TemplateRow>, id: Uuid, v: int): (r: Option<TemplateRow>)
    ensures r.Some? ==> r.value in rows && Live(r.value) && Key(r.value) == (id, v)
    ensures r.None? <==> forall row :: row in rows ==> !(Live(row) && Key(row) == (id, v))
  {
    var c := Filter(rows, LiveWithKey(id, v));
    if c == [] then None else Some(c[0])
  }

  /** The live versions of one template, newest first. */
  function FindAllVersionsByMasterTemplateId(rows: seq<TemplateRow>, id: Uuid): (r: seq<TemplateRow>)
    ensures forall x :: x in r <==> x in rows && Live(x) && x.template.masterTemplateId == id
    ensures multiset(r) == multiset(Filter(rows, LiveOfTemplate(id)))
    ensures SortedBy(r, VersionDesc)
  {
    VersionDescIsTotal();
    Sort(Filter(rows, LiveOfTemplate(id)), VersionDesc)
  }

  /** Active, non-archived templates whose date window contains d (no ORDER BY). */
  function FindActiveTemplates(rows: seq<TemplateRow>, d: EpochMillis): (r: seq<TemplateRow>)
    ensures forall x :: x in r <==> x in rows && ActiveAt(x, d)
    ensures forall x :: multiset(r)[x] == if ActiveAt(x, d) then multiset(rows)[x] else 0
  {
    Filter(rows, row => ActiveAt(row, d))
  }

  function FindByTemplateType(rows: seq<TemplateRow>, templateType: string): (r: seq<TemplateRow>)
    ensures forall x :: x in r <==> x in rows && Live(x) && x.template.templateType == Some(templateType)
    ensures forall x :: multiset(r)[x] == if LiveOfType(templateType)(x) then multiset(rows)[x] else 0
  {
    Filter(rows, LiveOfType(templateType))
  }

  /** ORDER BY template_version DESC LIMIT 1 over the active rows of a type. */
  function FindLatestActiveTemplateByType(rows: seq<TemplateRow>, templateType: string, d: EpochMillis)
    : (r: Option<TemplateRow>)
    ensures r.Some? ==> r.value in rows && ActiveAt(r.value, d) && r.value.template.templateType == Some(templateType)
    ensures r.Some? ==> forall x :: x in rows && ActiveAt(x, d) && x.template.templateType == Some(templateType)
                          ==> x.template.templateVersion <= r.value.template.templateVersion
    ensures r.None? <==> forall x :: x in rows ==> !(ActiveAt(x, d) && x.template.templateType == Some(templateType))
  {
    VersionDescIsTotal();
    FirstBy(Filter(rows, ActiveOfType(templateType, d)), VersionDesc)
  }

  function FindByTemplateTypeAndVersion(rows: seq<TemplateRow>, templateType: string, v: int): (r: Option<TemplateRow>)
    ensures r.Some? ==> r.value in rows && LiveOfTypeAndVersion(templateType, v)(r.value)
    ensures r.None? <==> forall x :: x in rows ==> !LiveOfTypeAndVersion(templateType, v)(x)
  {
    var c := Filter(rows, LiveOfTypeAndVersion(templateType, v));
    if c == [] then None else Some(c[0])
  }

  /** Active templates of a line of business, the 'ENTERPRISE' ones included (no ORDER BY). */
  function FindActiveTemplatesByLineOfBusiness(rows: seq<TemplateRow>, lineOfBusiness: string, d: EpochMillis)
    : (r: seq<TemplateRow>)
    ensures forall x :: x in r <==> x in rows && ActiveAt(x, d) && LineOfBusinessAdmits(x, lineOfBusiness)
    ensures forall x :: multiset(r)[x] ==
              if ActiveAt(x, d) && LineOfBusinessAdmits(x, lineOfBusiness) then multiset(rows)[x] else 0
  {
    Filter(rows, row => ActiveAt(row, d) && LineOfBusinessAdmits(row, lineOfBusiness))
  }

  /** COUNT(*) under the filters. */
  function CountWithFilters(rows: seq<TemplateRow>, lineOfBusiness: Option<string>, templateType: Option<string>,
                            activeFlag: Option<bool>, communicationType: Option<string>): (n: nat)
    ensures n == |Filter(rows, Matching(lineOfBusiness, templateType, activeFlag, communicationType))|
    ensures n <= |rows|
    ensures n == 0 <==> forall x :: x in rows ==> !MatchesFilters(x, lineOfBusiness, templateType, activeFlag, communicationType)
  {
    Count(rows, Matching(lineOfBusiness, templateType, activeFlag, communicationType))
  }

  /**
    The filtered list, newest created first, LIMIT limit OFFSET offset. None is
    the store rejecting a negative LIMIT or OFFSET.
   */
  function FindWithFilters(rows: seq<TemplateRow>, lineOfBusiness: Option<string>, templateType: Option<string>,
                           activeFlag: Option<bool>, communicationType: Option<string>, limit: int, offset: int)
    : (r: Option<seq<TemplateRow>>)
    ensures r.None? <==> limit < 0 || offset < 0
    ensures r.Some? ==> forall x :: x in r.value ==>
              x in rows && MatchesFilters(x, lineOfBusiness, templateType, activeFlag, communicationType)
    ensures r.Some? ==> multiset(r.value) <= multiset(Filter(rows, Matching(lineOfBusiness, templateType, activeFlag, communicationType)))
    ensures r.Some? ==> SortedBy(r.value, CreatedDesc)
    ensures r.Some? ==> exists s :: && multiset(s) == multiset(Filter(rows, Matching(lineOfBusiness, templateType,
                                                                              activeFlag, communicationType)))
                                    && SortedBy(s, CreatedDesc)
                                    && r.value == Window(s, limit, offset)
    ensures r.Some? ==>
              var total := CountWithFilters(rows, lineOfBusiness, templateType, activeFlag, communicationType);
              |r.value| == if offset >= total then 0 else Min(limit, total - offset)
  {
    CreatedDescIsTotal();
    var sorted := Sort(Filter(rows, Matching(lineOfBusiness, templateType, activeFlag, communicationType)), CreatedDesc);
    var r := Page(sorted, limit, offset);
    if r.Some? then
      assert forall x :: x in r.value ==> x in multiset(sorted);
      assert r.value == Window(sorted, limit, offset);
      r
    else
      r
  }

  /** The largest version stored for the template, archived rows included. */
  function MaxVersion(rows: seq<TemplateRow>, id: Uuid): (m: Option<int>)
    ensures m.None? <==> forall x :: x in rows ==> x.template.masterTemplateId != id
    ensures m.Some? ==> exists x :: x in rows && Key(x) == (id, m.value)
    ensures m.Some? ==> forall x :: x in rows && x.template.masterTemplateId == id ==> x.template.templateVersion <= m.value
  {
    if rows == [] then None
    else
      var rest := MaxVersion(rows[1..], id);
      assert rows == [rows[0]] + rows[1..];
      var head := rows[0].template;
      assert forall x :: x in rows[1..] ==> x in rows;
      assert Key(rows[0]) == (head.masterTemplateId, head.templateVersion);
      if head.masterTemplateId != id then rest
      else if rest.None? || rest.value < head.templateVersion then Some(head.templateVersion)
      else rest
  }

  /** COALESCE(MAX(template_version), 0) + 1 over every row of the template. */
  function GetNextVersionNumber(rows: seq<TemplateRow>, id: Uuid): (n: int)
    ensures forall x :: x in rows && x.template.masterTemplateId == id ==> x.template.templateVersion < n
    ensures (n == 1 && forall x :: x in rows ==> x.template.masterTemplateId != id)
            || (exists x :: x in rows && Key(x) == (id, n - 1))
  {
    match MaxVersion(rows, id)
    case None => 1
    case Some(m) => m + 1
  }

  /** COUNT(*) > 0 over the live rows of a type. */
  function ExistsByTemplateType(rows: seq<TemplateRow>, templateType: string): (b: bool)
    ensures b <==> exists x :: x in rows && Live(x) && x.template.templateType == Some(templateType)
  {
    Count(rows, LiveOfType(templateType)) > 0
  }

  /** SET archive_indicator = true, archive_timestamp = NOW(), updated_by, updated_timestamp = NOW(). */
  function Archived(updatedBy: string, now: Timestamp): TemplateRow -> TemplateRow {
    (row: TemplateRow) => row.(archiveIndicator := true, archiveTimestamp := Some(now),
                template := row.template.(updatedBy := Some(updatedBy), updatedTimestamp := Some(now)))
  }

  // ---------------------------------------------------------------- lemmas

  /** With unique keys the point lookup is determined: it finds the one live row of the key. */
  lemma {:induction false} PointLookupIsTheKeyedRow(rows: seq<TemplateRow>, row: TemplateRow)
    requires UniqueBy(rows, Key)
    requires row in rows && Live(row)
    ensures FindByMasterTemplateIdAndVersion(rows, row.template.masterTemplateId, row.template.templateVersion) == Some(row)
  {
  }

  /** With unique keys, all-versions lists each version once, strictly newest first. */
  lemma {:induction false} AllVersionsStrictlyDescending(rows: seq<TemplateRow>, id: Uuid)
    requires UniqueBy(rows, Key)
    ensures var r := FindAllVersionsByMasterTemplateId(rows, id);
      forall i, j :: 0 <= i < j < |r| ==> r[i].template.templateVersion > r[j].template.templateVersion
  {
    var f := Filter(rows, LiveOfTemplate(id));
    var r := FindAllVersionsByMasterTemplateId(rows, id);
    FilterKeepsDistinct(rows, LiveOfTemplate(id));
    PermutationKeepsDistinct(f, r);
    forall i, j | 0 <= i < j < |r|
      ensures r[i].template.templateVersion > r[j].template.templateVersion
    {
      SiblingVersionsDiffer(rows, r[i], r[j]);
    }
  }

  lemma SiblingVersionsDiffer(rows: seq<TemplateRow>, x: TemplateRow, y: TemplateRow)
    requires UniqueBy(rows, Key)
    requires x in rows && y in rows && x != y
    requires x.template.masterTemplateId == y.template.masterTemplateId
    ensures x.template.templateVersion != y.template.templateVersion
  {
  }

  /** The filtered list's length is what the count and the window predict. */
  lemma {:induction false} ListAgreesWithCount(rows: seq<TemplateRow>, lineOfBusiness: Option<string>, templateType: Option<string>,
                            activeFlag: Option<bool>, communicationType: Option<string>, size: int, page: int)
    requires size > 0 && page >= 0
    ensures var total := CountWithFilters(rows, lineOfBusiness, templateType, activeFlag, communicationType);
            var r := FindWithFilters(rows, lineOfBusiness, templateType, activeFlag, communicationType, size, page * size);
            r.Some? && (page * size < total ==> 0 < |r.value| <= size) && (page * size >= total ==> r.value == [])
  {
  }

  /** The next version number is not the key of any row, archived or not. */
  lemma {:induction false} NextVersionIsFresh(rows: seq<TemplateRow>, id: Uuid)
    ensures forall x :: x in rows ==> Key(x) != (id, GetNextVersionNumber(rows, id))
  {
  }

  /** Saving a live row makes it the point lookup's answer for its key. */
  lemma {:induction false} SaveThenFind(rows: seq<TemplateRow>, row: TemplateRow)
    requires Live(row)
    ensures FindByMasterTemplateIdAndVersion(UpsertBy(rows, row, Key), row.template.masterTemplateId,
                                             row.template.templateVersion) == Some(row)
  {
    UpsertSameKey(rows, row, Key, LiveWithKey(row.template.masterTemplateId, row.template.templateVersion));
  }

  /** Saving a row leaves the point lookup of every other key as it was. */
  lemma {:induction false} SaveKeepsOtherKeys(rows: seq<TemplateRow>, row: TemplateRow, id: Uuid, v: int)
    requires Key(row) != (id, v)
    ensures FindByMasterTemplateIdAndVersion(UpsertBy(rows, row, Key), id, v)
         == FindByMasterTemplateIdAndVersion(rows, id, v)
  {
    UpsertOtherKeys(rows, row, Key, LiveWithKey(id, v));
  }

  /** After archiving a key, the point lookup finds nothing under it. */
  lemma {:induction false} ArchiveThenNotFound(rows: seq<TemplateRow>, id: Uuid, v: int, updatedBy: string, now: Timestamp)
    ensures FindByMasterTemplateIdAndVersion(UpdateWhere(rows, HasKey(id, v), Archived(updatedBy, now)), id, v).None?
  {
  }

  /** Archiving a key leaves the point lookup of every other key as it was. */
  lemma {:induction false} ArchiveKeepsOtherKeys(rows: seq<TemplateRow>, id: Uuid, v: int, updatedBy: string, now: Timestamp,
                              otherId: Uuid, otherV: int)
    requires (otherId, otherV) != (id, v)
    ensures FindByMasterTemplateIdAndVersion(UpdateWhere(rows, HasKey(id, v), Archived(updatedBy, now)), otherId, otherV)
         == FindByMasterTemplateIdAndVersion(rows, otherId, otherV)
  {
    FilterUpdateWhere(rows, HasKey(id, v), Archived(updatedBy, now), LiveWithKey(otherId, otherV));
  }

  /** With unique keys an archive affects at most one row. */
  lemma {:induction false} ArchiveCountAtMostOne(rows: seq<TemplateRow>, id: Uuid, v: int)
    requires UniqueBy(rows, Key)
    ensures Count(rows, HasKey(id, v)) <= 1
  {
    if rows != [] {
      var tail := rows[1..];
      UniqueByTail(rows, Key);
      ArchiveCountAtMostOne(tail, id, v);
      if HasKey(id, v)(rows[0]) {
        HeadNotInTail(rows);
        forall x | x in tail ensures !HasKey(id, v)(x) {
          assert x in rows;
        }
      }
    }
  }

  // ---------------------------------------------------------------- the table

  /** The table: rows change only through save and the archive UPDATE. */
  class MasterTemplateRepository {
    var rows: seq<TemplateRow>

    ghost predicate Valid()
      reads this
    {
      UniqueBy(rows, Key)
    }

    constructor ()
      ensures Valid() && rows == []
    {
      rows := [];
    }

    /** save: stores the row under its key (insert or replace) and returns it. */
    method Save(row: TemplateRow) returns (saved: TemplateRow)
      requires Valid()
      modifies this
      ensures Valid()
      ensures rows == UpsertBy(old(rows), row, Key)
      ensures saved == row
    {
      UpsertKeepsUnique(rows, row, Key);
      rows := UpsertBy(rows, row, Key);
      saved := row;
    }

    /** archiveTemplateVersion: archives every row of the key, whatever its archive state; returns the row count. */
    method ArchiveTemplateVersion(id: Uuid, v: int, updatedBy: string, now: Timestamp) returns (count: int)
      requires Valid()
      modifies this
      ensures Valid()
      ensures rows == UpdateWhere(old(rows), HasKey(id, v), Archived(updatedBy, now))
      ensures count == Count(old(rows), HasKey(id, v))
      ensures count == 0 ==> rows == old(rows)
    {
      count := Count(rows, HasKey(id, v));
      if count == 0 {
        UpdateWhereNoMatch(rows, HasKey(id, v), Archived(updatedBy, now));
      }
      UpdateWhereKeepsUnique(rows, HasKey(id, v), Archived(updatedBy, now), Key);
      rows := UpdateWhere(rows, HasKey(id, v), Archived(updatedBy, now));
    }
  }
}
