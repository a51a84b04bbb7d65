/**
 * src/lib/Old_fetchProperties.ts: the earlier fetch, with keyword search and paging but
 * without the filter panel.
 */
module OldFetchProperties {
  import opened Wrappers
  import opened Seqs
  import opened Postgrest
  import opened Types
  import FetchProperties

  /** `FetchPropsArgs` of the earlier version: no `filter`. */
  datatype OldFetchArgs = OldFetchArgs(
    page: Option<int>,
    pageSize: Option<int>,
    keyword: Option<string>,
    orderBy: Option<FetchProperties.SortKey>,
    asc: Option<bool>)

  /** The same arguments with no filter, as the current fetch takes them. */
  function AsCurrent(args: OldFetchArgs): FetchProperties.FetchArgs {
    FetchProperties.FetchArgs(args.page, args.pageSize, args.keyword, args.orderBy, args.asc, None)
  }

  /** Closed listings excluded, then the keyword OR when a keyword is given. */
  function OldQueryOps(keyword: string): seq<Op<PropertyColumn>> {
    Where([NotIn(StatusCol, FetchProperties.BaselineExcluded)], keyword != "",
          AnyILike(FetchProperties.KeywordColumns, keyword))
  }

  function OldListing(table: seq<Property>, keyword: string): (r: seq<Property>)
    ensures forall p :: p in r ==> p in table && PropertyMatches(p, OldQueryOps(keyword))
  {
    Filter(table, p => PropertyMatches(p, OldQueryOps(keyword)))
  }

  /** The earlier `fetchProperties(args)`, `ordered` being the database's order of the listing. */
  function OldFetch(table: seq<Property>, args: OldFetchArgs, ordered: seq<Property>): (r: FetchProperties.FetchResult)
    requires FetchProperties.ValidArgs(AsCurrent(args))
    requires IsOrdering(ordered, OldListing(table, args.keyword.GetOr("")),
                        FetchProperties.SortKeyOf(AsCurrent(args)), args.asc.GetOr(false))
    ensures r.total == |ordered|
    ensures |r.items| <= args.pageSize.GetOr(20)
  {
    var page, pageSize := args.page.GetOr(1), args.pageSize.GetOr(20);
    OrderingMembers(ordered, OldListing(table, args.keyword.GetOr("")),
                    FetchProperties.SortKeyOf(AsCurrent(args)), args.asc.GetOr(false));
    var w := FetchProperties.PageWindow(ordered, page, pageSize);
    FetchProperties.ToResult(Some(w), Some(|ordered|), pageSize)
  }

  /** Without a filter the current query chain is the earlier one. */
  lemma EmptyFilterQueryIsOld(keyword: string)
    ensures FetchProperties.QueryOps(keyword, EmptyFilter) == OldQueryOps(keyword)
  {
  }

  /** The earlier fetch answers exactly as the current one called with no filter. */
  lemma OldFetchIsUnfilteredFetch(table: seq<Property>, args: OldFetchArgs, ordered: seq<Property>)
    requires FetchProperties.ValidArgs(AsCurrent(args))
    requires IsOrdering(ordered, OldListing(table, args.keyword.GetOr("")),
                        FetchProperties.SortKeyOf(AsCurrent(args)), args.asc.GetOr(false))
    ensures OldListing(table, args.keyword.GetOr("")) ==
            FetchProperties.Listing(table, args.keyword.GetOr(""), EmptyFilter)
    ensures OldFetch(table, args, ordered) == FetchProperties.Fetch(table, AsCurrent(args), ordered)
  {
    EmptyFilterQueryIsOld(args.keyword.GetOr(""));
  }
}
