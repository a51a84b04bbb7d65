/**
 * src/lib/fetchProperties.ts: one page of candidate properties for the matching page,
 * filtered by keyword and by the panel's `PropertyFilter`, closed listings always excluded.
 */
module FetchProperties {
  import opened Wrappers
  import opened Seqs
  import opened Strings
  import opened Postgrest
  import opened Types

  /** Statuses of listings that are finished, on hold or contracted: never listed. */
  const BaselineExcluded: seq<string> := ["진행종료", "진행보류", "계약완료"]

  /** The columns the keyword is searched in. */
  const KeywordColumns: seq<PropertyColumn> := [StoreNameCol, BeopjeongdongCol, SigunguCol, NotesCol, PropertyCodeCol]

  /** `orderBy?: "received_at" | "area" | "deposit" | "rent"` */
  datatype SortKey = ByReceivedAt | ByArea | ByDeposit | ByRent

  function SortColumn(k: SortKey): PropertyColumn {
    match k
    case ByReceivedAt => ReceivedAtCol
    case ByArea => AreaCol
    case ByDeposit => DepositCol
    case ByRent => RentCol
  }

  /** `FetchPropsArgs`: every field optional. */
  datatype FetchArgs = FetchArgs(
    page: Option<int>,
    pageSize: Option<int>,
    keyword: Option<string>,
    orderBy: Option<SortKey>,
    asc: Option<bool>,
    filter: Option<PropertyFilter>)

  datatype FetchResult = FetchResult(items: seq<Property>, total: int, totalPages: int)

  // The defaults of the destructuring parameter.
  function PageOf(args: FetchArgs): int { args.page.GetOr(1) }
  function PageSizeOf(args: FetchArgs): int { args.pageSize.GetOr(20) }
  function KeywordOf(args: FetchArgs): string { args.keyword.GetOr("") }
  function OrderOf(args: FetchArgs): SortKey { args.orderBy.GetOr(ByReceivedAt) }
  function AscOf(args: FetchArgs): bool { args.asc.GetOr(false) }
  function FilterOf(args: FetchArgs): PropertyFilter { args.filter.GetOr(EmptyFilter) }

  /** Pages are numbered from 1 and hold at least one row. */
  predicate ValidArgs(args: FetchArgs) {
    PageOf(args) >= 1 && PageSizeOf(args) >= 1
  }

  /** First row index of a page. */
  function From(page: int, pageSize: int): int { (page - 1) * pageSize }

  /** Last row index of a page. */
  function To(page: int, pageSize: int): int { From(page, pageSize) + pageSize - 1 }

  /** `if (filter?.f?.min) q = q.gte(col, min)` then `if (filter?.f?.max) q = q.lte(col, max)`. */
  function RangeSteps(q: seq<Op<PropertyColumn>>, col: PropertyColumn, r: Option<NumRange>): seq<Op<PropertyColumn>> {
    var low := Where(q, TruthyNum(MinOf(r)), Gte(col, MinOf(r).GetOr(0.0)));
    Where(low, TruthyNum(MaxOf(r)), Lte(col, MaxOf(r).GetOr(0.0)))
  }

  /** The steps up to the numeric ranges of the chain. */
  function RangedOps(keyword: string, filter: PropertyFilter): seq<Op<PropertyColumn>> {
    var base := [NotIn(StatusCol, BaselineExcluded)];
    var searched := Where(base, keyword != "", AnyILike(KeywordColumns, keyword));
    RangeSteps(RangeSteps(RangeSteps(RangeSteps(searched,
      AreaCol, filter.area), DepositCol, filter.deposit), RentCol, filter.rent), PremiumCol, filter.premium)
  }

  /** The query chain, one conditional step per `if` of the source, in source order. */
  function QueryOps(keyword: string, filter: PropertyFilter): seq<Op<PropertyColumn>> {
    Where(PlaceOps(RangedOps(keyword, filter), filter),
          NonEmptyList(filter.excludeStatus), NotIn(StatusCol, ExcludedStatuses(filter)))
  }

  /** The floor, province and district steps. */
  function PlaceOps(q: seq<Op<PropertyColumn>>, filter: PropertyFilter): seq<Op<PropertyColumn>> {
    var floored := Where(q, NonEmptyList(filter.floors), In(FloorCol, filter.floors.GetOr([])));
    var sidoed := Where(floored, TruthyText(filter.sido), Eq(SidoCol, filter.sido.GetOr("")));
    Where(sidoed, TruthyText(filter.sigungu), Eq(SigunguCol, filter.sigungu.GetOr("")))
  }

  // ---- The same selection read field by field ----

  /** A text column contains the keyword, case-insensitively; NULL never does. */
  predicate TextHas(v: Option<string>, k: string) {
    v.Some? && ContainsCI(v.value, k)
  }

  predicate KeywordHit(p: Property, k: string) {
    TextHas(p.storeName, k) || TextHas(p.beopjeongdong, k) || TextHas(p.sigungu, k)
    || TextHas(p.notes, k) || TextHas(p.propertyCode, k)
  }

  /** A range constrains only through its truthy bounds; a constrained NULL column fails. */
  predicate InRange(v: Option<real>, r: Option<NumRange>) {
    && (TruthyNum(MinOf(r)) ==> v.Some? && v.value >= MinOf(r).value)
    && (TruthyNum(MaxOf(r)) ==> v.Some? && v.value <= MaxOf(r).value)
  }

  /** The baseline statuses plus the caller's extra ones, when there are any. */
  function ExcludedStatuses(filter: PropertyFilter): seq<string> {
    BaselineExcluded + (if NonEmptyList(filter.excludeStatus) then filter.excludeStatus.value else [])
  }

  /** Which properties the query selects, stated on the record's fields. */
  predicate Listed(p: Property, keyword: string, filter: PropertyFilter) {
    && p.status.Some? && p.status.value !in ExcludedStatuses(filter)
    && (keyword != "" ==> KeywordHit(p, keyword))
    && InRange(p.area, filter.area)
    && InRange(p.deposit, filter.deposit)
    && InRange(p.rent, filter.rent)
    && InRange(p.premium, filter.premium)
    && (NonEmptyList(filter.floors) ==> p.floor.Some? && p.floor.value in filter.floors.value)
    && (TruthyText(filter.sido) ==> p.sido == filter.sido)
    && (TruthyText(filter.sigungu) ==> p.sigungu == filter.sigungu)
  }

  lemma KeywordOpMeaning(p: Property, k: string)
    ensures Holds(c => PropertyCell(p, c), AnyILike(KeywordColumns, k)) <==> KeywordHit(p, k)
  {
    var cell := c => PropertyCell(p, c);
    if KeywordHit(p, k) {
      var i := if TextHas(p.storeName, k) then 0 else if TextHas(p.beopjeongdong, k) then 1
               else if TextHas(p.sigungu, k) then 2 else if TextHas(p.notes, k) then 3 else 4;
      assert ILike(cell(KeywordColumns[i]), k);
    }
  }

  /** One conditional step on a property row. */
  lemma WhereMatches(p: Property, q: seq<Op<PropertyColumn>>, cond: bool, op: Op<PropertyColumn>)
    ensures PropertyMatches(p, Where(q, cond, op)) <==> PropertyMatches(p, q) && (cond ==> Holds(c => PropertyCell(p, c), op))
  {
    WhereHolds(c => PropertyCell(p, c), q, cond, op);
  }

  lemma RangeStepsMeaning(p: Property, q: seq<Op<PropertyColumn>>, col: PropertyColumn, v: Option<real>, r: Option<NumRange>)
    requires PropertyCell(p, col) == NumValue(v)
    ensures PropertyMatches(p, RangeSteps(q, col, r)) <==> PropertyMatches(p, q) && InRange(v, r)
  {
    var low := Where(q, TruthyNum(MinOf(r)), Gte(col, MinOf(r).GetOr(0.0)));
    WhereMatches(p, q, TruthyNum(MinOf(r)), Gte(col, MinOf(r).GetOr(0.0)));
    WhereMatches(p, low, TruthyNum(MaxOf(r)), Lte(col, MaxOf(r).GetOr(0.0)));
  }

  lemma RangedOpsMeaning(p: Property, keyword: string, filter: PropertyFilter)
    ensures PropertyMatches(p, RangedOps(keyword, filter)) <==>
      && p.status.Some? && p.status.value !in BaselineExcluded
      && (keyword != "" ==> KeywordHit(p, keyword))
      && InRange(p.area, filter.area) && InRange(p.deposit, filter.deposit)
      && InRange(p.rent, filter.rent) && InRange(p.premium, filter.premium)
  {
    var base := [NotIn(StatusCol, BaselineExcluded)];
    var searched := Where(base, keyword != "", AnyILike(KeywordColumns, keyword));
    var r1 := RangeSteps(searched, AreaCol, filter.area);
    var r2 := RangeSteps(r1, DepositCol, filter.deposit);
    var r3 := RangeSteps(r2, RentCol, filter.rent);
    assert PropertyMatches(p, base) <==> p.status.Some? && p.status.value !in BaselineExcluded by {
      assert HoldsAll(c => PropertyCell(p, c), base) <==> Holds(c => PropertyCell(p, c), base[0]);
    }
    WhereMatches(p, base, keyword != "", AnyILike(KeywordColumns, keyword));
    KeywordOpMeaning(p, keyword);
    RangeStepsMeaning(p, searched, AreaCol, p.area, filter.area);
    RangeStepsMeaning(p, r1, DepositCol, p.deposit, filter.deposit);
    RangeStepsMeaning(p, r2, RentCol, p.rent, filter.rent);
    RangeStepsMeaning(p, r3, PremiumCol, p.premium, filter.premium);
  }

  lemma PlaceOpsMeaning(p: Property, q: seq<Op<PropertyColumn>>, filter: PropertyFilter)
    ensures PropertyMatches(p, PlaceOps(q, filter)) <==>
      && PropertyMatches(p, q)
      && (NonEmptyList(filter.floors) ==> p.floor.Some? && p.floor.value in filter.floors.value)
      && (TruthyText(filter.sido) ==> p.sido == filter.sido)
      && (TruthyText(filter.sigungu) ==> p.sigungu == filter.sigungu)
  {
    var floored := Where(q, NonEmptyList(filter.floors), In(FloorCol, filter.floors.GetOr([])));
    var sidoed := Where(floored, TruthyText(filter.sido), Eq(SidoCol, filter.sido.GetOr("")));
    WhereMatches(p, q, NonEmptyList(filter.floors), In(FloorCol, filter.floors.GetOr([])));
    WhereMatches(p, floored, TruthyText(filter.sido), Eq(SidoCol, filter.sido.GetOr("")));
    WhereMatches(p, sidoed, TruthyText(filter.sigungu), Eq(SigunguCol, filter.sigungu.GetOr("")));
  }

  lemma ExcludeOpMeaning(p: Property, q: seq<Op<PropertyColumn>>, filter: PropertyFilter)
    requires PropertyMatches(p, q) ==> p.status.Some? && p.status.value !in BaselineExcluded
    ensures PropertyMatches(p, Where(q, NonEmptyList(filter.excludeStatus), NotIn(StatusCol, ExcludedStatuses(filter)))) <==>
      PropertyMatches(p, q) && p.status.value !in ExcludedStatuses(filter)
  {
    WhereMatches(p, q, NonEmptyList(filter.excludeStatus), NotIn(StatusCol, ExcludedStatuses(filter)));
  }

  /** The query chain selects exactly the rows `Listed` describes. */
  lemma {:induction false} QueryMeaning(p: Property, keyword: string, filter: PropertyFilter)
    ensures PropertyMatches(p, QueryOps(keyword, filter)) <==> Listed(p, keyword, filter)
  {
    var ranged := RangedOps(keyword, filter);
    RangedOpsMeaning(p, keyword, filter);
    PlaceOpsMeaning(p, ranged, filter);
    ExcludeOpMeaning(p, PlaceOps(ranged, filter), filter);
  }

  // ---- The response ----

  /** The rows the filtered query counts, in table order. */
  function Listing(table: seq<Property>, keyword: string, filter: PropertyFilter): (r: seq<Property>)
    ensures forall p :: p in r <==> p in table && Listed(p, keyword, filter)
  {
    forall p ensures PropertyMatches(p, QueryOps(keyword, filter)) <==> Listed(p, keyword, filter) {
      QueryMeaning(p, keyword, filter);
    }
    Filter(table, p => PropertyMatches(p, QueryOps(keyword, filter)))
  }

  /** `Math.max(1, Math.ceil(count / pageSize))`: at least one page, and just enough pages. */
  function TotalPages(count: nat, pageSize: int): (n: int)
    requires pageSize >= 1
    ensures n >= 1
    ensures n * pageSize >= count
    ensures n == 1 || (n - 1) * pageSize < count
  {
    Max(1, CeilDiv(count, pageSize))
  }

  /** `{ items: data ?? [], total: count ?? 0, totalPages }` from the raw response. */
  function ToResult(data: Option<seq<Property>>, count: Option<nat>, pageSize: int): (r: FetchResult)
    requires pageSize >= 1
    ensures data.None? ==> r.items == []
    ensures data.Some? ==> r.items == data.value
    ensures count.None? ==> r.total == 0 && r.totalPages == 1
    ensures count.Some? ==> r.total == count.value
    ensures r.totalPages == TotalPages(r.total, pageSize)
    ensures r.total >= 0 && r.totalPages >= 1 && r.totalPages * pageSize >= r.total
  {
    var total := count.GetOr(0);
    FetchResult(data.GetOr([]), total, TotalPages(total, pageSize))
  }

  function SortKeyOf(args: FetchArgs): Property -> Value {
    p => PropertyCell(p, SortColumn(OrderOf(args)))
  }

  /** `.range(from, to)` for page `page` of `pageSize` rows. */
  function PageWindow<T>(rows: seq<T>, page: int, pageSize: int): (w: seq<T>)
    requires page >= 1 && pageSize >= 1
    ensures |w| <= pageSize
    ensures forall k :: 0 <= k < |w| ==> From(page, pageSize) + k < |rows| && w[k] == rows[From(page, pageSize) + k]
  {
    assert From(page, pageSize) >= 0 by { assert (page - 1) * pageSize >= 0; }
    Window(rows, From(page, pageSize), To(page, pageSize))
  }

  /**
   * Row `i` of the listing is on page `i / pageSize + 1`, at position `i % pageSize`, and
   * that page is within `totalPages`: paging through pages 1..totalPages visits every row.
   */
  lemma {:induction false} RowOnItsPage<T>(rows: seq<T>, pageSize: int, i: int)
    requires pageSize >= 1 && 0 <= i < |rows|
    ensures var page := i / pageSize + 1;
            && page <= TotalPages(|rows|, pageSize)
            && i % pageSize < |PageWindow(rows, page, pageSize)|
            && PageWindow(rows, page, pageSize)[i % pageSize] == rows[i]
  {
    PageWithinTotal(|rows|, pageSize, i);
    PositionInPage(rows, pageSize, i);
  }

  lemma PageWithinTotal(n: nat, pageSize: int, i: int)
    requires pageSize >= 1 && 0 <= i < n
    ensures i / pageSize + 1 <= TotalPages(n, pageSize)
  {
    var q := i / pageSize;
    var total := TotalPages(n, pageSize);
    assert q * pageSize <= i by { assert i == pageSize * q + i % pageSize; }
    CancelFactor(q, total, pageSize);
  }

  lemma PositionInPage<T>(rows: seq<T>, pageSize: int, i: int)
    requires pageSize >= 1 && 0 <= i < |rows|
    ensures i % pageSize < |PageWindow(rows, i / pageSize + 1, pageSize)|
    ensures PageWindow(rows, i / pageSize + 1, pageSize)[i % pageSize] == rows[i]
  {
    var q, rest := i / pageSize, i % pageSize;
    assert From(q + 1, pageSize) == q * pageSize;
    assert q * pageSize + rest == i by { assert i == pageSize * q + rest; }
    var w := Window(rows, q * pageSize, q * pageSize + pageSize - 1);
    assert |w| == Max(0, Min(q * pageSize + pageSize, |rows|) - q * pageSize);
  }

  /**
   * A page spans exactly `pageSize` row indices, and the next page starts right after it:
   * two consecutive pages together are the window over both, with no row skipped or repeated.
   */
  lemma {:induction false} ConsecutivePagesAdjacent<T>(rows: seq<T>, page: int, pageSize: int)
    requires page >= 1 && pageSize >= 1
    ensures To(page, pageSize) - From(page, pageSize) + 1 == pageSize
    ensures From(page + 1, pageSize) == To(page, pageSize) + 1
    ensures To(page, pageSize) < |rows| ==> |PageWindow(rows, page, pageSize)| == pageSize
    ensures PageWindow(rows, page, pageSize) + PageWindow(rows, page + 1, pageSize)
            == Window(rows, From(page, pageSize), To(page + 1, pageSize))
  {
    var from := From(page, pageSize);
    NextPageStart(page, pageSize);
    assert PageWindow(rows, page, pageSize) == Window(rows, from, from + pageSize - 1);
    assert PageWindow(rows, page + 1, pageSize) == Window(rows, from + pageSize, from + 2 * pageSize - 1);
    WindowsAdjacent(rows, from, pageSize);
  }

  lemma NextPageStart(page: int, pageSize: int)
    requires page >= 1 && pageSize >= 1
    ensures From(page, pageSize) >= 0
    ensures From(page + 1, pageSize) == From(page, pageSize) + pageSize
  {
    assert (page - 1) * pageSize >= 0;
    assert page * pageSize == (page - 1) * pageSize + pageSize;
  }

  /** The window of `n` rows from `from` followed by the next `n` rows is the window of `2n` rows. */
  lemma WindowsAdjacent<T>(rows: seq<T>, from: int, n: int)
    requires from >= 0 && n >= 1
    ensures from + n - 1 < |rows| ==> |Window(rows, from, from + n - 1)| == n
    ensures Window(rows, from, from + n - 1) + Window(rows, from + n, from + 2 * n - 1)
            == Window(rows, from, from + 2 * n - 1)
  {
    var a := Window(rows, from, from + n - 1);
    var b := Window(rows, from + n, from + 2 * n - 1);
    var w := Window(rows, from, from + 2 * n - 1);
    assert |a| + |b| == |w|;
    forall k | 0 <= k < |w| ensures (a + b)[k] == w[k] {
      if k >= |a| {
        assert |a| == n;
        assert (a + b)[k] == b[k - n];
      }
    }
  }

  lemma CancelFactor(a: int, b: int, c: int)
    requires c > 0 && a * c < b * c
    ensures a < b
  {
  }

  /** A page cut from a sorted listing is itself sorted. */
  lemma PageWindowSorted<T>(rows: seq<T>, page: int, pageSize: int, key: T -> Value, ascending: bool)
    requires page >= 1 && pageSize >= 1
    requires SortedBy(rows, key, ascending)
    ensures SortedBy(PageWindow(rows, page, pageSize), key, ascending)
  {
    var w := PageWindow(rows, page, pageSize);
    var from := From(page, pageSize);
    forall i, j | 0 <= i < j < |w| ensures InOrder(key(w[i]), key(w[j]), ascending) {
      assert w[i] == rows[from + i] && w[j] == rows[from + j];
    }
  }

  /** A page past the last one is empty. */
  lemma PagePastLastIsEmpty<T>(rows: seq<T>, page: int, pageSize: int)
    requires pageSize >= 1 && page > TotalPages(|rows|, pageSize)
    ensures PageWindow(rows, page, pageSize) == []
  {
    var total := TotalPages(|rows|, pageSize);
    assert (page - 1) * pageSize >= total * pageSize;
  }

  /**
   * `fetchProperties(args)` against `table`, where `ordered` is the order the database
   * returns the listing in for `.order(orderBy, { ascending: asc })`.
   */
  function Fetch(table: seq<Property>, args: FetchArgs, ordered: seq<Property>): (r: FetchResult)
    requires ValidArgs(args)
    requires IsOrdering(ordered, Listing(table, KeywordOf(args), FilterOf(args)), SortKeyOf(args), AscOf(args))
    ensures r.items == PageWindow(ordered, PageOf(args), PageSizeOf(args))
    ensures r.total == |Listing(table, KeywordOf(args), FilterOf(args))|
    ensures r.totalPages == TotalPages(r.total, PageSizeOf(args))
  {
    OrderingMembers(ordered, Listing(table, KeywordOf(args), FilterOf(args)), SortKeyOf(args), AscOf(args));
    ToResult(Some(PageWindow(ordered, PageOf(args), PageSizeOf(args))), Some(|ordered|), PageSizeOf(args))
  }

  // ---- Properties of a fetch ----

  /** Every returned property is in the table and satisfies the filter; none is closed. */
  lemma FetchReturnsListed(table: seq<Property>, args: FetchArgs, ordered: seq<Property>, p: Property)
    requires ValidArgs(args)
    requires IsOrdering(ordered, Listing(table, KeywordOf(args), FilterOf(args)), SortKeyOf(args), AscOf(args))
    requires p in Fetch(table, args, ordered).items
    ensures p in table && Listed(p, KeywordOf(args), FilterOf(args))
    ensures p.status.Some? && p.status.value !in BaselineExcluded
  {
    OrderingMembers(ordered, Listing(table, KeywordOf(args), FilterOf(args)), SortKeyOf(args), AscOf(args));
    var w := Fetch(table, args, ordered).items;
    var k :| 0 <= k < |w| && w[k] == p;
    assert p in ordered;
    assert p.status.value !in ExcludedStatuses(FilterOf(args));
  }

  /** The totals do not depend on which page is asked for. */
  lemma TotalsIgnorePage(table: seq<Property>, args: FetchArgs, ordered: seq<Property>, page: int)
    requires ValidArgs(args) && page >= 1
    requires IsOrdering(ordered, Listing(table, KeywordOf(args), FilterOf(args)), SortKeyOf(args), AscOf(args))
    ensures var a := Fetch(table, args, ordered);
            var b := Fetch(table, args.(page := Some(page)), ordered);
            a.total == b.total && a.totalPages == b.totalPages
  {
  }

  /** 45 matching rows at 20 per page: three pages, the third holding the last five. */
  lemma FortyFiveRowsExample(rows: seq<Property>)
    requires |rows| == 45
    ensures TotalPages(45, 20) == 3
    ensures |Window(rows, From(3, 20), To(3, 20))| == 5
    ensures Window(rows, From(4, 20), To(4, 20)) == []
  {
  }

  /** A zero bound is falsy and constrains nothing, not even NULL columns. */
  lemma ZeroBoundIsNoBound(v: Option<real>, max: Option<real>)
    ensures InRange(v, Some(NumRange(Some(0.0), max))) <==> InRange(v, Some(NumRange(None, max)))
    ensures InRange(v, Some(NumRange(None, Some(0.0))))
  {
  }

  /** A bound of `g` is the one in `f`, or the one in `f` constrains nothing. */
  predicate BoundAtLeast(g: Option<real>, f: Option<real>) {
    g == f || !TruthyNum(f)
  }

  /**
   * `g` sets every condition `f` sets, with the same value, and may set more:
   * each field of `g` equals that of `f`, or the field is unset (undefined,
   * empty or falsy) in `f`.
   */
  predicate NarrowerFilter(g: PropertyFilter, f: PropertyFilter) {
    && BoundAtLeast(MinOf(g.area), MinOf(f.area)) && BoundAtLeast(MaxOf(g.area), MaxOf(f.area))
    && BoundAtLeast(MinOf(g.deposit), MinOf(f.deposit)) && BoundAtLeast(MaxOf(g.deposit), MaxOf(f.deposit))
    && BoundAtLeast(MinOf(g.rent), MinOf(f.rent)) && BoundAtLeast(MaxOf(g.rent), MaxOf(f.rent))
    && BoundAtLeast(MinOf(g.premium), MinOf(f.premium)) && BoundAtLeast(MaxOf(g.premium), MaxOf(f.premium))
    && (g.floors == f.floors || !NonEmptyList(f.floors))
    && (g.sido == f.sido || !TruthyText(f.sido))
    && (g.sigungu == f.sigungu || !TruthyText(f.sigungu))
    && (g.excludeStatus == f.excludeStatus || !NonEmptyList(f.excludeStatus))
  }

  /**
   * Adding filters never lets a row back in: a keyword where there was none,
   * and any range bound, floor list, sido, sigungu or excluded-status list where
   * the looser filter left that field unset.
   */
  lemma NarrowingFilters(p: Property, keyword: string, narrowKeyword: string, f: PropertyFilter, g: PropertyFilter)
    requires narrowKeyword == keyword || keyword == ""
    requires NarrowerFilter(g, f)
    ensures Listed(p, narrowKeyword, g) ==> Listed(p, keyword, f)
  {
  }

  /** The two common cases: extra excluded statuses, and a keyword. */
  lemma ExtraExclusionsAndKeywordNarrow(p: Property, keyword: string, filter: PropertyFilter, extra: seq<string>)
    ensures Listed(p, keyword, filter.(excludeStatus := Some(extra))) ==> Listed(p, keyword, filter.(excludeStatus := None))
    ensures Listed(p, keyword, filter) ==> Listed(p, "", filter)
  {
    NarrowingFilters(p, keyword, keyword, filter.(excludeStatus := None), filter.(excludeStatus := Some(extra)));
    NarrowingFilters(p, "", keyword, filter, filter);
  }

  /** The panel's own keyword and business-type fields play no part in the query. */
  lemma PanelOnlyFieldsIgnored(p: Property, keyword: string, filter: PropertyFilter,
                               k: Option<string>, types: Option<seq<string>>)
    ensures QueryOps(keyword, filter.(keyword := k, businessTypes := types)) == QueryOps(keyword, filter)
    ensures Listed(p, keyword, filter.(keyword := k, businessTypes := types)) <==> Listed(p, keyword, filter)
  {
  }

  /** The keyword is matched without regard to ASCII case, whatever the filter. */
  lemma {:induction false} KeywordIgnoresCase(p: Property, keyword: string, filter: PropertyFilter)
    ensures Listed(p, keyword, filter) <==> Listed(p, Lower(keyword), filter)
  {
    assert Lower(Lower(keyword)) == Lower(keyword);
  }
}
