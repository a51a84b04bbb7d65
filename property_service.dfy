/**
 * src/services/propertyService.ts: the property list of the service layer (flat
 * `PropertyFilters`, no closed-listing exclusion), `create` defaults and `updateStatus`.
 */
module PropertyService {
  import opened Wrappers
  import opened Seqs
  import opened Strings
  import opened Postgrest
  import opened Types
  import FetchProperties

  /** The columns `filters.keyword` is searched in. */
  const ServiceKeywordColumns: seq<PropertyColumn> := [StoreNameCol, JibunCol, NotesCol, PropertyCodeCol]

  /** `getList`'s parameters, every one optional; `orderBy` may name any column. */
  datatype ListParams = ListParams(
    page: Option<int>,
    pageSize: Option<int>,
    filters: Option<PropertyFilters>,
    orderBy: Option<PropertyColumn>,
    asc: Option<bool>)

  /** `PaginatedResponse<Property>` */
  datatype Paginated = Paginated(items: seq<Property>, total: int, totalPages: int)

  function PageOf(params: ListParams): int { params.page.GetOr(1) }
  function PageSizeOf(params: ListParams): int { params.pageSize.GetOr(20) }
  function FiltersOf(params: ListParams): PropertyFilters { params.filters.GetOr(NoFilters) }
  function OrderOf(params: ListParams): PropertyColumn { params.orderBy.GetOr(ReceivedAtCol) }
  function AscOf(params: ListParams): bool { params.asc.GetOr(false) }

  predicate ValidParams(params: ListParams) {
    PageOf(params) >= 1 && PageSizeOf(params) >= 1
  }

  /** The four equality filters, each only when its text is non-empty. */
  function EqOps(f: PropertyFilters): seq<Op<PropertyColumn>> {
    var s := Where([], TruthyText(f.status), Eq(StatusCol, f.status.GetOr("")));
    var s2 := Where(s, TruthyText(f.sido), Eq(SidoCol, f.sido.GetOr("")));
    var s3 := Where(s2, TruthyText(f.sigungu), Eq(SigunguCol, f.sigungu.GetOr("")));
    Where(s3, TruthyText(f.businessType), Eq(BusinessTypeCol, f.businessType.GetOr("")))
  }

  /** The area, deposit and rent bounds, each only when truthy. */
  function BoundOps(q: seq<Op<PropertyColumn>>, f: PropertyFilters): seq<Op<PropertyColumn>> {
    var a := FetchProperties.RangeSteps(q, AreaCol, Some(NumRange(f.minArea, f.maxArea)));
    var d := FetchProperties.RangeSteps(a, DepositCol, Some(NumRange(f.minDeposit, f.maxDeposit)));
    FetchProperties.RangeSteps(d, RentCol, Some(NumRange(f.minRent, f.maxRent)))
  }

  /** `getList`'s query chain, in source order. */
  function ServiceOps(f: PropertyFilters): seq<Op<PropertyColumn>> {
    Where(BoundOps(EqOps(f), f), TruthyText(f.keyword), AnyILike(ServiceKeywordColumns, f.keyword.GetOr("")))
  }

  /** `v` equals the filter's text, when that text is non-empty. */
  predicate EqualsWhenGiven(v: Option<string>, given: Option<string>) {
    TruthyText(given) ==> v == given
  }

  predicate ServiceKeywordHit(p: Property, k: string) {
    FetchProperties.TextHas(p.storeName, k) || FetchProperties.TextHas(p.jibun, k)
    || FetchProperties.TextHas(p.notes, k) || FetchProperties.TextHas(p.propertyCode, k)
  }

  /** Which properties `getList` selects, stated on the record's fields. */
  predicate ServiceListed(p: Property, f: PropertyFilters) {
    && EqualsWhenGiven(p.status, f.status)
    && EqualsWhenGiven(p.sido, f.sido)
    && EqualsWhenGiven(p.sigungu, f.sigungu)
    && EqualsWhenGiven(p.businessType, f.businessType)
    && FetchProperties.InRange(p.area, Some(NumRange(f.minArea, f.maxArea)))
    && FetchProperties.InRange(p.deposit, Some(NumRange(f.minDeposit, f.maxDeposit)))
    && FetchProperties.InRange(p.rent, Some(NumRange(f.minRent, f.maxRent)))
    && (TruthyText(f.keyword) ==> ServiceKeywordHit(p, f.keyword.value))
  }

  lemma EqOpsMeaning(p: Property, f: PropertyFilters)
    ensures PropertyMatches(p, EqOps(f)) <==>
      EqualsWhenGiven(p.status, f.status) && EqualsWhenGiven(p.sido, f.sido)
      && EqualsWhenGiven(p.sigungu, f.sigungu) && EqualsWhenGiven(p.businessType, f.businessType)
  {
    var s := Where([], TruthyText(f.status), Eq(StatusCol, f.status.GetOr("")));
    var s2 := Where(s, TruthyText(f.sido), Eq(SidoCol, f.sido.GetOr("")));
    var s3 := Where(s2, TruthyText(f.sigungu), Eq(SigunguCol, f.sigungu.GetOr("")));
    FetchProperties.WhereMatches(p, [], TruthyText(f.status), Eq(StatusCol, f.status.GetOr("")));
    FetchProperties.WhereMatches(p, s, TruthyText(f.sido), Eq(SidoCol, f.sido.GetOr("")));
    FetchProperties.WhereMatches(p, s2, TruthyText(f.sigungu), Eq(SigunguCol, f.sigungu.GetOr("")));
    FetchProperties.WhereMatches(p, s3, TruthyText(f.businessType), Eq(BusinessTypeCol, f.businessType.GetOr("")));
  }

  lemma BoundOpsMeaning(p: Property, q: seq<Op<PropertyColumn>>, f: PropertyFilters)
    ensures PropertyMatches(p, BoundOps(q, f)) <==>
      && PropertyMatches(p, q)
      && FetchProperties.InRange(p.area, Some(NumRange(f.minArea, f.maxArea)))
      && FetchProperties.InRange(p.deposit, Some(NumRange(f.minDeposit, f.maxDeposit)))
      && FetchProperties.InRange(p.rent, Some(NumRange(f.minRent, f.maxRent)))
  {
    var a := FetchProperties.RangeSteps(q, AreaCol, Some(NumRange(f.minArea, f.maxArea)));
    var d := FetchProperties.RangeSteps(a, DepositCol, Some(NumRange(f.minDeposit, f.maxDeposit)));
    FetchProperties.RangeStepsMeaning(p, q, AreaCol, p.area, Some(NumRange(f.minArea, f.maxArea)));
    FetchProperties.RangeStepsMeaning(p, a, DepositCol, p.deposit, Some(NumRange(f.minDeposit, f.maxDeposit)));
    FetchProperties.RangeStepsMeaning(p, d, RentCol, p.rent, Some(NumRange(f.minRent, f.maxRent)));
  }

  lemma ServiceKeywordOpMeaning(p: Property, k: string)
    ensures Holds(c => PropertyCell(p, c), AnyILike(ServiceKeywordColumns, k)) <==> ServiceKeywordHit(p, k)
  {
    var cell := c => PropertyCell(p, c);
    if ServiceKeywordHit(p, k) {
      var i := if FetchProperties.TextHas(p.storeName, k) then 0 else if FetchProperties.TextHas(p.jibun, k) then 1
               else if FetchProperties.TextHas(p.notes, k) then 2 else 3;
      assert ILike(cell(ServiceKeywordColumns[i]), k);
    }
  }

  /** The query chain selects exactly the rows `ServiceListed` describes. */
  lemma {:induction false} ServiceQueryMeaning(p: Property, f: PropertyFilters)
    ensures PropertyMatches(p, ServiceOps(f)) <==> ServiceListed(p, f)
  {
    EqOpsMeaning(p, f);
    BoundOpsMeaning(p, EqOps(f), f);
    FetchProperties.WhereMatches(p, BoundOps(EqOps(f), f), TruthyText(f.keyword),
                                 AnyILike(ServiceKeywordColumns, f.keyword.GetOr("")));
    ServiceKeywordOpMeaning(p, f.keyword.GetOr(""));
  }

  function ServiceListing(table: seq<Property>, f: PropertyFilters): (r: seq<Property>)
    ensures forall p :: p in r <==> p in table && ServiceListed(p, f)
  {
    forall p ensures PropertyMatches(p, ServiceOps(f)) <==> ServiceListed(p, f) {
      ServiceQueryMeaning(p, f);
    }
    Filter(table, p => PropertyMatches(p, ServiceOps(f)))
  }

  /** `Math.ceil(total / pageSize)` with `total = count || 0`: zero pages for no rows. */
  function ServiceTotalPages(count: Option<nat>, pageSize: int): (n: nat)
    requires pageSize >= 1
    ensures n * pageSize >= count.GetOr(0)
    ensures n == 0 || (n - 1) * pageSize < count.GetOr(0)
    ensures n == 0 <==> count.GetOr(0) == 0
  {
    CeilDiv(count.GetOr(0), pageSize)
  }

  function SortKeyOf(params: ListParams): Property -> Value {
    p => PropertyCell(p, OrderOf(params))
  }

  /** `propertyService.getList(params)`, `ordered` being the database's order of the listing. */
  function GetList(table: seq<Property>, params: ListParams, ordered: seq<Property>): (r: Paginated)
    requires ValidParams(params)
    requires IsOrdering(ordered, ServiceListing(table, FiltersOf(params)), SortKeyOf(params), AscOf(params))
    ensures r.items == FetchProperties.PageWindow(ordered, PageOf(params), PageSizeOf(params))
    ensures r.total == |ServiceListing(table, FiltersOf(params))|
    ensures r.totalPages == ServiceTotalPages(Some(r.total), PageSizeOf(params))
  {
    OrderingMembers(ordered, ServiceListing(table, FiltersOf(params)), SortKeyOf(params), AscOf(params));
    var total := |ordered|;
    Paginated(FetchProperties.PageWindow(ordered, PageOf(params), PageSizeOf(params)), total,
              ServiceTotalPages(Some(total), PageSizeOf(params)))
  }

  /** Every returned property is in the table and satisfies the filters. */
  lemma GetListReturnsListed(table: seq<Property>, params: ListParams, ordered: seq<Property>, p: Property)
    requires ValidParams(params)
    requires IsOrdering(ordered, ServiceListing(table, FiltersOf(params)), SortKeyOf(params), AscOf(params))
    requires p in GetList(table, params, ordered).items
    ensures p in table && ServiceListed(p, FiltersOf(params))
  {
    OrderingMembers(ordered, ServiceListing(table, FiltersOf(params)), SortKeyOf(params), AscOf(params));
    var w := GetList(table, params, ordered).items;
    var k :| 0 <= k < |w| && w[k] == p;
    assert p in ordered;
  }

  /**
   * Unlike `fetchProperties`, this path excludes no status: with no filters every row is
   * listed, closed ones included, and an empty result reports zero pages instead of one.
   */
  lemma NoBaselineExclusion(table: seq<Property>, pageSize: int)
    requires pageSize >= 1
    ensures forall p :: p in table ==> p in ServiceListing(table, NoFilters)
    ensures ServiceTotalPages(Some(0), pageSize) == 0
    ensures FetchProperties.TotalPages(0, pageSize) == 1
  {
  }

  /** A listing whose status `fetchProperties` always hides is still returned here. */
  lemma ClosedListingReturned(p: Property)
    requires p.status == Some("계약완료")
    ensures ServiceListed(p, NoFilters)
    ensures !FetchProperties.Listed(p, "", EmptyFilter)
  {
    assert p.status.value in FetchProperties.BaselineExcluded;
  }

  // ---- create and updateStatus ----

  /** `{ ...property, received_at: property.received_at || now, status: property.status || 'available' }` */
  function WithCreateDefaults(p: Property, now: string): (r: Property)
    ensures TruthyText(p.receivedAt) ==> r.receivedAt == p.receivedAt
    ensures !TruthyText(p.receivedAt) ==> r.receivedAt == Some(now)
    ensures TruthyText(p.status) ==> r.status == p.status
    ensures !TruthyText(p.status) ==> r.status == Some("available")
    ensures r.(receivedAt := p.receivedAt, status := p.status) == p
  {
    p.(receivedAt := if TruthyText(p.receivedAt) then p.receivedAt else Some(now),
       status := if TruthyText(p.status) then p.status else Some("available"))
  }

  /** Filling the defaults twice fills them once: a record with both fields set is kept as it is. */
  lemma CreateDefaultsIdempotent(p: Property, now: string, later: string)
    requires now != ""
    ensures TruthyText(WithCreateDefaults(p, now).receivedAt) && TruthyText(WithCreateDefaults(p, now).status)
    ensures WithCreateDefaults(WithCreateDefaults(p, now), later) == WithCreateDefaults(p, now)
  {
  }

  /** The statuses `updateStatus` accepts. */
  datatype ListingStatus = Available | Contracted | Completed

  function StatusText(s: ListingStatus): string {
    match s
    case Available => "available"
    case Contracted => "contracted"
    case Completed => "completed"
  }

  /** `update({ status }).eq('property_id', id)` on a list of rows. */
  function SetStatus(rows: seq<Property>, id: int, s: ListingStatus): (r: seq<Property>)
    ensures |r| == |rows|
    ensures forall k :: 0 <= k < |rows| ==> r[k].propertyId == rows[k].propertyId
    ensures forall k :: 0 <= k < |rows| && rows[k].propertyId == id ==> r[k].status == Some(StatusText(s))
    ensures forall k :: 0 <= k < |rows| ==> r[k].(status := rows[k].status) == rows[k]
    ensures forall k :: 0 <= k < |rows| && rows[k].propertyId != id ==> r[k] == rows[k]
  {
    seq(|rows|, k requires 0 <= k < |rows| =>
      if rows[k].propertyId == id then rows[k].(status := Some(StatusText(s))) else rows[k])
  }

  /** Setting the same status twice is setting it once. */
  lemma SetStatusIdempotent(rows: seq<Property>, id: int, s: ListingStatus)
    ensures SetStatus(SetStatus(rows, id, s), id, s) == SetStatus(rows, id, s)
  {
  }

  /** The statuses `updateStatus` writes are none of the ones `fetchProperties` hides. */
  lemma UpdatedStatusStillFetched(s: ListingStatus)
    ensures StatusText(s) !in FetchProperties.BaselineExcluded
  {
  }

  /** The `properties` table as the service writes it; the database assigns `property_id`. */
  class PropertyTable {
    var rows: seq<Property>
    var nextId: int

    /** Property ids are unique and below the next one to be assigned. */
    ghost predicate Valid()
      reads this
    {
      && (forall i, j :: 0 <= i < |rows| && 0 <= j < |rows| && i != j ==> rows[i].propertyId != rows[j].propertyId)
      && (forall k :: 0 <= k < |rows| ==> rows[k].propertyId < nextId)
    }

    constructor ()
      ensures Valid() && rows == []
    {
      rows := [];
      nextId := 1;
    }

    /** `create(property)`: inserts the record with its defaults and returns the stored row. */
    method Create(input: Property, now: string) returns (created: Property)
      requires Valid()
      modifies this
      ensures Valid()
      ensures created == WithCreateDefaults(input, now).(propertyId := old(nextId))
      ensures rows == old(rows) + [created]
      ensures nextId == old(nextId) + 1
    {
      created := WithCreateDefaults(input, now).(propertyId := nextId);
      rows := rows + [created];
      nextId := nextId + 1;
    }

    /** `updateStatus(propertyId, status)`: only that row's status changes. */
    method UpdateStatus(id: int, s: ListingStatus)
      requires Valid()
      modifies this
      ensures Valid()
      ensures rows == SetStatus(old(rows), id, s)
      ensures nextId == old(nextId)
    {
      rows := SetStatus(rows, id, s);
    }
  }
}
