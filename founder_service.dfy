/**
 * src/services/foundersSevice.ts: the founder list (status and keyword filters, paging
 * only when both page and page size are given, newest id first) and `create`'s default.
 */
module FounderService {
  import opened Wrappers
  import opened Seqs
  import opened Postgrest
  import opened Types
  import FetchProperties

  /** The columns the keyword is searched in. */
  const FounderKeywordColumns: seq<FounderColumn> := [FounderNameCol, ContactCol, NoteCol]

  /** `getList`'s optional filter argument. */
  datatype FounderQuery = FounderQuery(
    status: Option<string>,
    keyword: Option<string>,
    page: Option<int>,
    pageSize: Option<int>)

  /** `{ data, count }` */
  datatype FounderList = FounderList(data: seq<Founder>, count: int)

  const NoQuery := FounderQuery(None, None, None, None)

  /** `if (x)` on a number that is not real-valued: neither undefined nor 0. */
  predicate TruthyInt(x: Option<int>) {
    x.Some? && x.value != 0
  }

  /** Paging applies only when both `page` and `pageSize` are truthy. */
  predicate Paged(q: FounderQuery) {
    TruthyInt(q.page) && TruthyInt(q.pageSize)
  }

  /** A truthy page and page size are positive, as every caller passes them. */
  predicate ValidQuery(q: FounderQuery) {
    Paged(q) ==> q.page.value >= 1 && q.pageSize.value >= 1
  }

  function FounderOps(q: FounderQuery): seq<Op<FounderColumn>> {
    var s := Where([], TruthyText(q.status), Eq(FounderStatusCol, q.status.GetOr("")));
    Where(s, TruthyText(q.keyword), AnyILike(FounderKeywordColumns, q.keyword.GetOr("")))
  }

  predicate FounderKeywordHit(f: Founder, k: string) {
    FetchProperties.TextHas(f.name, k) || FetchProperties.TextHas(f.contact, k) || FetchProperties.TextHas(f.note, k)
  }

  /** Which founders the query selects, stated on the record's fields. */
  predicate FounderListed(f: Founder, q: FounderQuery) {
    && (TruthyText(q.status) ==> f.status == q.status)
    && (TruthyText(q.keyword) ==> FounderKeywordHit(f, q.keyword.value))
  }

  lemma {:induction false} FounderQueryMeaning(f: Founder, q: FounderQuery)
    ensures FounderMatches(f, FounderOps(q)) <==> FounderListed(f, q)
  {
    var cell := c => FounderCell(f, c);
    var s := Where([], TruthyText(q.status), Eq(FounderStatusCol, q.status.GetOr("")));
    WhereHolds(cell, [], TruthyText(q.status), Eq(FounderStatusCol, q.status.GetOr("")));
    WhereHolds(cell, s, TruthyText(q.keyword), AnyILike(FounderKeywordColumns, q.keyword.GetOr("")));
    var k := q.keyword.GetOr("");
    if FounderKeywordHit(f, k) {
      var i := if FetchProperties.TextHas(f.name, k) then 0 else if FetchProperties.TextHas(f.contact, k) then 1 else 2;
      assert ILike(cell(FounderKeywordColumns[i]), k);
    }
  }

  function FounderListing(table: seq<Founder>, q: FounderQuery): (r: seq<Founder>)
    ensures forall f :: f in r <==> f in table && FounderListed(f, q)
  {
    forall f ensures FounderMatches(f, FounderOps(q)) <==> FounderListed(f, q) {
      FounderQueryMeaning(f, q);
    }
    Filter(table, f => FounderMatches(f, FounderOps(q)))
  }

  /** `.order('founder_id', { ascending: false })` */
  function ById(f: Founder): Value { FounderCell(f, FounderIdCol) }

  /**
   * `founderService.getList(filters)`, `ordered` being the database's order of the listing
   * (descending `founder_id`). Without paging the whole listing comes back.
   */
  function GetList(table: seq<Founder>, q: FounderQuery, ordered: seq<Founder>): (r: FounderList)
    requires ValidQuery(q)
    requires IsOrdering(ordered, FounderListing(table, q), ById, false)
    ensures r.count == |FounderListing(table, q)|
    ensures !Paged(q) ==> r.data == ordered
    ensures Paged(q) ==> r.data == FetchProperties.PageWindow(ordered, q.page.value, q.pageSize.value)
    ensures forall f :: f in r.data ==> f in table && FounderListed(f, q)
  {
    OrderingMembers(ordered, FounderListing(table, q), ById, false);
    var data := if Paged(q) then FetchProperties.PageWindow(ordered, q.page.value, q.pageSize.value) else ordered;
    assert forall f :: f in data ==> f in ordered;
    FounderList(data, |ordered|)
  }

  /** `{ data: data || [], count: count || 0 }` from the raw response. */
  function ToFounderList(data: Option<seq<Founder>>, count: Option<nat>): (r: FounderList)
    ensures data.None? ==> r.data == []
    ensures count.None? ==> r.count == 0
    ensures data.Some? ==> r.data == data.value
    ensures count.Some? ==> r.count == count.value
  {
    FounderList(data.GetOr([]), count.GetOr(0))
  }

  /** Founder ids are unique in the table. */
  ghost predicate UniqueIds(table: seq<Founder>) {
    forall i, j :: 0 <= i < |table| && 0 <= j < |table| && table[i].founderId == table[j].founderId ==> i == j
  }

  /**
   * Ordering by the primary key leaves the database no choice: whatever order it is
   * free to pick, the answer is the same.
   */
  lemma GetListDeterministic(table: seq<Founder>, q: FounderQuery, a: seq<Founder>, b: seq<Founder>)
    requires ValidQuery(q) && UniqueIds(table)
    requires IsOrdering(a, FounderListing(table, q), ById, false)
    requires IsOrdering(b, FounderListing(table, q), ById, false)
    ensures GetList(table, q, a) == GetList(table, q, b)
  {
    var rows := FounderListing(table, q);
    forall x, y | x in rows && y in rows && ById(x) == ById(y) ensures x == y {
      assert x.founderId as real == y.founderId as real;
      var i :| 0 <= i < |table| && table[i] == x;
      var j :| 0 <= j < |table| && table[j] == y;
    }
    OrderingUnique(a, b, rows, ById, false);
  }

  /** The list is newest first: a founder listed before another has the larger id. */
  lemma GetListNewestFirst(table: seq<Founder>, q: FounderQuery, ordered: seq<Founder>, i: int, j: int)
    requires ValidQuery(q)
    requires IsOrdering(ordered, FounderListing(table, q), ById, false)
    requires 0 <= i < j < |GetList(table, q, ordered).data|
    ensures GetList(table, q, ordered).data[i].founderId >= GetList(table, q, ordered).data[j].founderId
  {
    var d := GetList(table, q, ordered).data;
    if Paged(q) {
      FetchProperties.PageWindowSorted(ordered, q.page.value, q.pageSize.value, ById, false);
    }
    assert SortedBy(d, ById, false);
    assert InOrder(ById(d[i]), ById(d[j]), false);
  }

  /** `{ ...founder, received_at: founder.received_at || now }` */
  function WithReceivedAt(f: Founder, now: string): (r: Founder)
    ensures TruthyText(f.receivedAt) ==> r.receivedAt == f.receivedAt
    ensures !TruthyText(f.receivedAt) ==> r.receivedAt == Some(now)
    ensures r.(receivedAt := f.receivedAt) == f
  {
    f.(receivedAt := if TruthyText(f.receivedAt) then f.receivedAt else Some(now))
  }

  lemma ReceivedAtIdempotent(f: Founder, now: string, later: string)
    requires now != ""
    ensures WithReceivedAt(WithReceivedAt(f, now), later) == WithReceivedAt(f, now)
  {
  }

  /** The `founders` table as `create` writes it; the database assigns `founder_id`. */
  class FounderTable {
    var rows: seq<Founder>
    var nextId: int

    ghost predicate Valid()
      reads this
    {
      && UniqueIds(rows)
      && (forall k :: 0 <= k < |rows| ==> rows[k].founderId < nextId)
    }

    constructor ()
      ensures Valid() && rows == []
    {
      rows := [];
      nextId := 1;
    }

    /** `create(founder)`: inserts the record with its timestamp default and returns the stored row. */
    method Create(input: Founder, now: string) returns (created: Founder)
      requires Valid()
      modifies this
      ensures Valid()
      ensures created == WithReceivedAt(input, now).(founderId := old(nextId))
      ensures rows == old(rows) + [created]
      ensures nextId == old(nextId) + 1
    {
      created := WithReceivedAt(input, now).(founderId := nextId);
      rows := rows + [created];
      nextId := nextId + 1;
    }
  }
}
