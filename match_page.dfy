/**
 * The match pages, src/pages/match/Old_match.tsx and src/app/match/old_page.tsx: the
 * selection of candidate properties, the page number, and the handlers that save, cancel
 * and flag recommendations of the loaded founder. Both pages have the same state and the
 * same handlers, so one class models both.
 */
module MatchPage {
  import opened Wrappers
  import opened Seqs
  import opened Postgrest
  import opened Types
  import FetchProperties
  import opened MatchingService

  /** The page-number input: `Math.min(Math.max(1, n), totalPages)`. */
  function ClampPage(n: int, totalPages: int): (r: int)
    ensures totalPages >= 1 ==> 1 <= r <= totalPages
    ensures 1 <= n <= totalPages ==> r == n
    ensures n > totalPages ==> r == totalPages
    ensures n < 1 && totalPages >= 1 ==> r == 1
  {
    Min(Max(1, n), totalPages)
  }

  /** The previous-page button: `Math.max(1, p - 1)`. */
  function PrevPage(p: int): (r: int)
    ensures r >= 1 && r <= Max(p, 1)
    ensures p > 1 ==> r == p - 1
  {
    Max(1, p - 1)
  }

  /** The next-page button: `Math.min(totalPages, p + 1)`. */
  function NextPage(p: int, totalPages: int): (r: int)
    ensures r <= totalPages && r <= p + 1
    ensures p < totalPages ==> r == p + 1
  {
    Min(totalPages, p + 1)
  }

  /** Every way of changing the page keeps a page within `[1, totalPages]` there. */
  lemma PagingStaysInRange(p: int, n: int, totalPages: int)
    requires 1 <= p <= totalPages
    ensures 1 <= PrevPage(p) <= totalPages
    ensures 1 <= NextPage(p, totalPages) <= totalPages
    ensures 1 <= ClampPage(n, totalPages) <= totalPages
  {
  }

  /** Next undoes Prev away from the first page, and Prev undoes Next away from the last. */
  lemma PrevNextInverse(p: int, totalPages: int)
    ensures 1 < p <= totalPages ==> NextPage(PrevPage(p), totalPages) == p
    ensures 1 <= p < totalPages ==> PrevPage(NextPage(p, totalPages)) == p
  {
  }

  /** The id `!founder?.founder_id` tests: absent for no founder or founder id 0. */
  function LoadedFounderId(founder: Option<Founder>): Option<int> {
    if founder.Some? && founder.value.founderId != 0 then Some(founder.value.founderId) else None
  }

  /** `recommended.find(r => r.matching_id === id)` */
  function FindRow(rows: seq<RowWithProperty>, id: int): (r: Option<RowWithProperty>)
    ensures r.Some? ==> r.value in rows && r.value.matching.matchingId == id
    ensures r.None? <==> forall k :: 0 <= k < |rows| ==> rows[k].matching.matchingId != id
  {
    if rows == [] then None
    else if rows[0].matching.matchingId == id then Some(rows[0])
    else FindRow(rows[1..], id)
  }

  /** The local update `prev.map(r => r.matching_id === id ? { ...r, [field]: value } : r)`. */
  function SetRowFlag(rows: seq<RowWithProperty>, id: int, field: Flag, value: bool): (r: seq<RowWithProperty>)
    ensures |r| == |rows|
    ensures forall k :: 0 <= k < |rows| && rows[k].matching.matchingId == id ==>
              FlagOf(r[k].matching, field) == Some(value) && r[k].property == rows[k].property
    ensures forall k :: 0 <= k < |rows| && rows[k].matching.matchingId == id ==>
              r[k].matching == WithFlag(rows[k].matching, field, value)
    ensures forall k :: 0 <= k < |rows| && rows[k].matching.matchingId != id ==> r[k] == rows[k]
  {
    seq(|rows|, k requires 0 <= k < |rows| =>
      if rows[k].matching.matchingId == id then rows[k].(matching := WithFlag(rows[k].matching, field, value)) else rows[k])
  }

  /** The value `toggleFlag` writes: `!(row[field] ?? false)`. */
  function Negated(row: RowWithProperty, field: Flag): bool {
    !FlagOf(row.matching, field).GetOr(false)
  }

  /** `toggleFlag` on the local list: no change for an unknown id, else the row's flag is negated. */
  function ToggleRows(rows: seq<RowWithProperty>, id: int, field: Flag): (r: seq<RowWithProperty>)
    ensures FindRow(rows, id).None? ==> r == rows
    ensures FindRow(rows, id).Some? ==> r == SetRowFlag(rows, id, field, Negated(FindRow(rows, id).value, field))
  {
    match FindRow(rows, id)
    case None => rows
    case Some(row) => SetRowFlag(rows, id, field, Negated(row, field))
  }

  /**
   * What the toggle does, row by row: for a known id, every row with that id gets
   * `!(flag ?? false)` of the row `find` returned, in that flag only; all other rows stay.
   */
  lemma ToggleRowsMeaning(rows: seq<RowWithProperty>, id: int, field: Flag)
    ensures |ToggleRows(rows, id, field)| == |rows|
    ensures FindRow(rows, id).Some? ==>
              var r := ToggleRows(rows, id, field);
              var value := !FlagOf(FindRow(rows, id).value.matching, field).GetOr(false);
              && (forall k :: 0 <= k < |rows| && rows[k].matching.matchingId == id ==>
                    FlagOf(r[k].matching, field) == Some(value) && r[k].matching == WithFlag(rows[k].matching, field, value)
                    && r[k].property == rows[k].property)
              && (forall k :: 0 <= k < |rows| && rows[k].matching.matchingId != id ==> r[k] == rows[k])
  {
  }

  ghost predicate UniqueMatchingIds(rows: seq<RowWithProperty>) {
    forall i, j :: 0 <= i < j < |rows| ==> rows[i].matching.matchingId != rows[j].matching.matchingId
  }

  /**
   * Toggling the same flag twice gives every row back whose flag was set; on the toggled
   * row a flag that was missing comes back as `false`.
   */
  lemma {:induction false} ToggleRowsTwice(rows: seq<RowWithProperty>, id: int, field: Flag)
    requires UniqueMatchingIds(rows)
    ensures var twice := ToggleRows(ToggleRows(rows, id, field), id, field);
            && |twice| == |rows|
            && (forall k :: 0 <= k < |rows| && FlagOf(rows[k].matching, field).Some? ==> twice[k] == rows[k])
            && (forall k :: 0 <= k < |rows| && rows[k].matching.matchingId == id ==>
                  FlagOf(twice[k].matching, field) == Some(FlagOf(rows[k].matching, field).GetOr(false)))
  {
    var once := ToggleRows(rows, id, field);
    match FindRow(rows, id)
    case None =>
    case Some(row) =>
      var i :| 0 <= i < |rows| && rows[i] == row;
      var v := Negated(row, field);
      assert once == SetRowFlag(rows, id, field, v);
      assert once[i].matching.matchingId == id;
      match FindRow(once, id)
      case None =>
        assert false;
      case Some(row2) =>
        var j :| 0 <= j < |once| && once[j] == row2;
        assert j == i;
        assert FlagOf(row2.matching, field) == Some(v);
  }

  /** What `saveRecommendations` ends with, and the alert it shows. */
  datatype SaveOutcome = NoFounder | NothingSelected | SaveFailed | Saved

  function SaveAlert(o: SaveOutcome): string {
    match o
    case NoFounder => "창업자를 먼저 선택하세요."
    case NothingSelected => "선택된 매물이 없습니다."
    case SaveFailed => "추천 저장 실패"
    case Saved => "추천 저장 완료"
  }

  /**
   * The pages' payload and `saveMatchings`' payload differ in the method column only:
   * the pages write '자동', the service '수동'.
   */
  lemma PagePayloadIsAuto(founderId: int, ids: seq<int>, now: string)
    ensures var page := Payload(founderId, ids, now, Auto);
            var service := Payload(founderId, ids, now, Manual);
            && |page| == |service| == |ids|
            && forall k :: 0 <= k < |ids| ==>
                 page[k] == service[k].(matchMethod := Auto) && page[k].matchMethod != service[k].matchMethod
  {
  }

  /** The choices of the page-size select. */
  const PageSizeOptions: set<int> := {20, 50, 100}

  /** The state of a match page, one field per React state variable the handlers use. */
  datatype PageState = PageState(
    founder: Option<Founder>,
    recommended: seq<RowWithProperty>,
    properties: seq<Property>,
    selected: seq<int>,
    page: int,
    pageSize: int,
    keyword: string,
    orderBy: FetchProperties.SortKey,
    asc: bool,
    totalCount: int,
    totalPages: int)

  class Page {
    var founder: Option<Founder>
    var recommended: seq<RowWithProperty>
    var properties: seq<Property>
    var selected: seq<int>
    var page: int
    var pageSize: int
    var keyword: string
    var orderBy: FetchProperties.SortKey
    var asc: bool
    var totalCount: int
    var totalPages: int

    function State(): PageState
      reads this
    {
      PageState(founder, recommended, properties, selected, page, pageSize, keyword, orderBy, asc, totalCount, totalPages)
    }

    /** The page and page count stay at least 1; the selection holds each id once. */
    ghost predicate Valid()
      reads this
    {
      page >= 1 && pageSize >= 1 && totalPages >= 1 && NoDuplicates(selected)
    }

    /** The initial `useState` values. */
    constructor ()
      ensures Valid()
      ensures State() == PageState(None, [], [], [], 1, 20, "", FetchProperties.ByReceivedAt, false, 0, 1)
    {
      founder := None;
      recommended := [];
      properties := [];
      selected := [];
      page := 1;
      pageSize := 20;
      keyword := "";
      orderBy := FetchProperties.ByReceivedAt;
      asc := false;
      totalCount := 0;
      totalPages := 1;
    }

    /** `applyKeyword(v)`: a new keyword starts again from page 1. */
    method ApplyKeyword(v: string)
      requires Valid()
      modifies this
      ensures Valid()
      ensures State() == old(State()).(page := 1, keyword := v)
    {
      page := 1;
      keyword := v;
    }

    /**
     * The effect on `founder?.founder_id`: when the id changes the selection is cleared,
     * and a loaded founder starts again from page 1.
     */
    method SetFounder(next: Option<Founder>)
      requires Valid()
      modifies this
      ensures Valid()
      ensures LoadedIdOf(old(founder)) == LoadedIdOf(next) ==> State() == old(State()).(founder := next)
      ensures LoadedIdOf(old(founder)) != LoadedIdOf(next) && LoadedFounderId(next).None? ==>
                State() == old(State()).(founder := next, selected := [])
      ensures LoadedIdOf(old(founder)) != LoadedIdOf(next) && LoadedFounderId(next).Some? ==>
                State() == old(State()).(founder := next, selected := [], page := 1)
    {
      var changed := LoadedIdOf(founder) != LoadedIdOf(next);
      founder := next;
      if changed {
        selected := [];
        if LoadedFounderId(next).Some? {
          page := 1;
        }
      }
    }

    /** The candidate list effect: one page of `fetchProperties` with no filter object. */
    method LoadProperties(table: seq<Property>, ordered: seq<Property>)
      requires Valid()
      requires IsOrdering(ordered, FetchProperties.Listing(table, keyword, EmptyFilter),
                          FetchProperties.SortKeyOf(Args()), asc)
      modifies this
      ensures Valid()
      ensures var r := FetchProperties.Fetch(table, old(Args()), ordered);
              State() == old(State()).(properties := r.items, totalCount := r.total, totalPages := r.totalPages)
    {
      var r := FetchProperties.Fetch(table, Args(), ordered);
      properties := r.items;
      totalCount := r.total;
      totalPages := r.totalPages;
    }

    /** The arguments the page passes to `fetchProperties`. */
    function Args(): FetchProperties.FetchArgs
      reads this
      ensures Valid() ==> FetchProperties.ValidArgs(Args())
    {
      FetchProperties.FetchArgs(Some(page), Some(pageSize), Some(keyword), Some(orderBy), Some(asc), None)
    }

    /**
     * `fetchRecommended(founderId)`: the founder's saved rows, newest first, with the
     * joined property normalised (`getByFounderId`). `ordered` and `joins` are the
     * database's answer over the `properties` table.
     */
    method LoadRecommended(table: MatchingTable, properties: seq<Property>, founderId: int,
                           ordered: seq<Matching>, joins: seq<JoinedProperty>)
      requires Valid()
      requires IsOrdering(ordered, FounderRows(table.rows, founderId), ByMatchedAt, false) && |joins| == |ordered|
      requires forall k :: 0 <= k < |joins| ==> JoinedFrom(joins[k], properties, ordered[k].propertyId)
      modifies this
      ensures Valid()
      ensures State() == old(State()).(recommended := GetByFounderId(table.rows, properties, founderId, ordered, joins))
    {
      recommended := GetByFounderId(table.rows, properties, founderId, ordered, joins);
    }

    /** `toggleSelect(id)` */
    method ToggleSelect(id: int)
      requires Valid()
      modifies this
      ensures Valid()
      ensures State() == old(State()).(selected := Toggle(old(selected), id))
    {
      selected := Toggle(selected, id);
    }

    /** The save bar's clear button: `setSelectedPropertyIds([])`. */
    method ClearSelection()
      requires Valid()
      modifies this
      ensures Valid()
      ensures State() == old(State()).(selected := [])
    {
      selected := [];
    }

    /** The sort select: a new sort column starts again from page 1. */
    method SetOrderBy(key: FetchProperties.SortKey)
      requires Valid()
      modifies this
      ensures Valid()
      ensures State() == old(State()).(page := 1, orderBy := key)
    {
      orderBy := key;
      page := 1;
    }

    /** The ▲/▼ button: `setAsc((a) => !a)`, with the page kept. */
    method ToggleAsc()
      requires Valid()
      modifies this
      ensures Valid()
      ensures State() == old(State()).(asc := !old(asc))
    {
      asc := !asc;
    }

    /** The page-size select, offering 20, 50 and 100 rows: a new size starts again from page 1. */
    method SetPageSize(size: int)
      requires Valid()
      requires size in PageSizeOptions
      modifies this
      ensures Valid()
      ensures State() == old(State()).(page := 1, pageSize := size)
    {
      pageSize := size;
      page := 1;
    }

    /** The page-number input, with `n` the typed number. */
    method TypePage(n: int)
      requires Valid()
      modifies this
      ensures Valid()
      ensures State() == old(State()).(page := ClampPage(n, old(totalPages)))
    {
      page := ClampPage(n, totalPages);
    }

    method GoPrev()
      requires Valid()
      modifies this
      ensures Valid()
      ensures State() == old(State()).(page := PrevPage(old(page)))
    {
      page := PrevPage(page);
    }

    method GoNext()
      requires Valid()
      modifies this
      ensures Valid()
      ensures State() == old(State()).(page := NextPage(old(page), old(totalPages)))
    {
      page := NextPage(page, totalPages);
    }

    /**
     * `saveRecommendations()`: refused without a founder or a selection; otherwise the
     * selection is upserted with method '자동', and cleared only when the write succeeds.
     * `storeFails` stands for the database answering with an error.
     */
    method SaveRecommendations(table: MatchingTable, now: string, storeFails: bool) returns (outcome: SaveOutcome)
      requires Valid() && table.Valid()
      modifies this, table
      ensures Valid() && table.Valid()
      ensures LoadedFounderId(old(founder)).None? ==>
                outcome == NoFounder && State() == old(State()) && table.rows == old(table.rows)
      ensures LoadedFounderId(old(founder)).Some? && old(selected) == [] ==>
                outcome == NothingSelected && State() == old(State()) && table.rows == old(table.rows)
      ensures LoadedFounderId(old(founder)).Some? && old(selected) != [] && storeFails ==>
                outcome == SaveFailed && State() == old(State()) && table.rows == old(table.rows)
      ensures LoadedFounderId(old(founder)).Some? && old(selected) != [] && !storeFails ==>
                && outcome == Saved
                && State() == old(State()).(selected := [])
                && table.rows == Upsert(old(table.rows), old(table.nextId),
                                        Payload(LoadedFounderId(old(founder)).value, old(selected), now, Auto))
      ensures outcome == Saved ==> forall id :: id in old(selected) ==>
                HasPair(table.rows, LoadedFounderId(old(founder)).value, id)
    {
      var fid := LoadedFounderId(founder);
      if fid.None? {
        return NoFounder;
      }
      if |selected| == 0 {
        return NothingSelected;
      }
      if storeFails {
        return SaveFailed;
      }
      var ids := selected;
      table.SaveMatchings(fid.value, ids, now, Auto);
      UpsertContents(old(table.rows), old(table.nextId), Payload(fid.value, ids, now, Auto));
      forall id | id in ids ensures HasPair(table.rows, fid.value, id) {
        var k :| 0 <= k < |ids| && ids[k] == id;
        assert Payload(fid.value, ids, now, Auto)[k].propertyId == id;
      }
      selected := [];
      return Saved;
    }

    /**
     * `cancelRecommendation(propertyId)`: without a founder nothing happens; otherwise the
     * founder's row for that property is deleted, unless the database fails.
     */
    method CancelRecommendation(table: MatchingTable, propertyId: int, storeFails: bool)
      requires Valid() && table.Valid()
      modifies table
      ensures table.Valid()
      ensures LoadedFounderId(founder).None? || storeFails ==> table.rows == old(table.rows)
      ensures LoadedFounderId(founder).Some? && !storeFails ==>
                table.rows == RemovePair(old(table.rows), LoadedFounderId(founder).value, propertyId)
    {
      var fid := LoadedFounderId(founder);
      if fid.None? || storeFails {
        return;
      }
      table.DeleteMatching(fid.value, propertyId);
    }

    /**
     * `toggleFlag(matchingId, field)`: nothing for an id not on screen; otherwise
     * `!(row[field] ?? false)` is written to the table and, when that succeeds, to the row
     * on screen.
     */
    method ToggleFlag(table: MatchingTable, matchingId: int, field: Flag, storeFails: bool)
      requires Valid() && table.Valid()
      modifies this, table
      ensures Valid() && table.Valid()
      ensures FindRow(old(recommended), matchingId).None? || storeFails ==>
                State() == old(State()) && table.rows == old(table.rows)
      ensures FindRow(old(recommended), matchingId).Some? && !storeFails ==>
                && table.rows == SetFlag(old(table.rows), matchingId, field,
                                         Negated(FindRow(old(recommended), matchingId).value, field))
                && State() == old(State()).(recommended := ToggleRows(old(recommended), matchingId, field))
    {
      var row := FindRow(recommended, matchingId);
      if row.None? || storeFails {
        return;
      }
      var next := Negated(row.value, field);
      table.UpdateFlag(matchingId, field, next);
      recommended := SetRowFlag(recommended, matchingId, field, next);
    }
  }

  /** `founder?.founder_id` as the effect compares it. */
  function LoadedIdOf(founder: Option<Founder>): Option<int> {
    if founder.Some? then Some(founder.value.founderId) else None
  }
}
