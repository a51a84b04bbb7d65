/**
 * src/components/match/FounderSelector.tsx: the founder picker's search, its list of
 * recently chosen founders kept under the `recentFounderIds` key of local storage, and
 * what choosing a founder does to the picker's state.
 */
module FounderSelector {
  import opened Wrappers
  import opened Seqs
  import opened Strings
  import opened Postgrest
  import opened Types

  /** `.slice(0, 10)` on the updated recent list. */
  const RecentCap := 10
  /** `.slice(0, 5)` on the stored list when loading. */
  const LoadCap := 5
  /** `.limit(10)` on a search. */
  const SearchLimit := 10

  /** `[id, ...recent.filter(x => x !== id)].slice(0, 10)` */
  function SelectRecent(recent: seq<int>, id: int): (r: seq<int>)
    ensures 0 < |r| <= RecentCap && r[0] == id
  {
    Take([id] + RemoveAll(recent, id), RecentCap)
  }

  /** The updated list is the chosen id followed by at most nine of the others. */
  lemma SelectShape(recent: seq<int>, id: int)
    ensures SelectRecent(recent, id) == [id] + Take(RemoveAll(recent, id), RecentCap - 1)
    ensures id !in Take(RemoveAll(recent, id), RecentCap - 1)
  {
    var rest := RemoveAll(recent, id);
    var t := Take(rest, RecentCap - 1);
    assert forall x :: x in t ==> x in rest;
  }

  /** The chosen id occurs exactly once in the updated list. */
  lemma SelectedOnce(recent: seq<int>, id: int)
    ensures Count(SelectRecent(recent, id), id) == 1
  {
    SelectShape(recent, id);
    var t := Take(RemoveAll(recent, id), RecentCap - 1);
    CountAbsent(t, id);
    assert ([id] + t)[1..] == t;
  }

  /** Behind the chosen id, the other ids keep their relative order. */
  lemma SelectKeepsOrder(recent: seq<int>, id: int)
    ensures IsSubsequence(SelectRecent(recent, id)[1..], recent)
  {
    SelectShape(recent, id);
    var rest := RemoveAll(recent, id);
    assert SelectRecent(recent, id)[1..] == rest[..|Take(rest, RecentCap - 1)|];
    SubsequencePrefix(rest, recent, |Take(rest, RecentCap - 1)|);
  }

  /** A duplicate-free list stays duplicate-free. */
  lemma SelectKeepsDistinct(recent: seq<int>, id: int)
    requires NoDuplicates(recent)
    ensures NoDuplicates(SelectRecent(recent, id))
  {
    SelectShape(recent, id);
    RemoveAllNoDuplicates(recent, id);
    var t := Take(RemoveAll(recent, id), RecentCap - 1);
    assert NoDuplicates(t);
    var r := [id] + t;
    forall i, j | 0 <= i < j < |r| ensures r[i] != r[j] {
      if i == 0 {
        assert r[j] == t[j - 1];
      } else {
        assert r[i] == t[i - 1] && r[j] == t[j - 1];
      }
    }
  }

  /** Choosing the same founder again leaves the list as it is. */
  lemma SelectIdempotent(recent: seq<int>, id: int)
    ensures SelectRecent(SelectRecent(recent, id), id) == SelectRecent(recent, id)
  {
    SelectShape(recent, id);
    var t := Take(RemoveAll(recent, id), RecentCap - 1);
    var r := [id] + t;
    assert r[0] == id && r[1..] == t;
    assert RemoveAll(r, id) == t;
  }

  /** While fewer than ten ids are stored, none is lost: the list holds the chosen id and every old one. */
  lemma SelectKeepsAllUnderCap(recent: seq<int>, id: int)
    requires |recent| < RecentCap
    ensures forall x :: x in SelectRecent(recent, id) <==> x == id || x in recent
  {
    SelectShape(recent, id);
  }

  /** `data?.find(f => f.founder_id === id)`: the first row with that id. */
  function FindById(data: seq<Founder>, id: int): (r: Option<Founder>)
    ensures r.Some? ==> r.value in data && r.value.founderId == id
    ensures r.None? ==> forall k :: 0 <= k < |data| ==> data[k].founderId != id
  {
    if data == [] then None
    else if data[0].founderId == id then Some(data[0])
    else FindById(data[1..], id)
  }

  function Ids(rows: seq<Founder>): (r: seq<int>)
    ensures |r| == |rows| && forall k :: 0 <= k < |rows| ==> r[k] == rows[k].founderId
  {
    seq(|rows|, k requires 0 <= k < |rows| => rows[k].founderId)
  }

  /** `ids.map(id => data?.find(...)).filter(Boolean)`: the fetched rows in stored-id order. */
  function InStoredOrder(ids: seq<int>, data: seq<Founder>): (r: seq<Founder>)
    ensures |r| <= |ids|
    ensures forall f :: f in r ==> f in data && f.founderId in ids
    ensures IsSubsequence(Ids(r), ids)
    ensures forall k :: 0 <= k < |ids| && FindById(data, ids[k]).Some? ==> FindById(data, ids[k]).value in r
  {
    if ids == [] then []
    else
      var rest := InStoredOrder(ids[1..], data);
      assert forall k :: 1 <= k < |ids| ==> ids[k] == ids[1..][k - 1];
      match FindById(data, ids[0])
      case None =>
        SubsequenceSkip(Ids(rest), ids);
        rest
      case Some(f) =>
        assert Ids([f] + rest) == [ids[0]] + Ids(rest);
        [f] + rest
  }

  /** The rows of the `.in("founder_id", ids)` query. */
  function RecentRows(table: seq<Founder>, ids: seq<int>): seq<Founder> {
    Filter(table, (f: Founder) => f.founderId in ids)
  }

  /** `.order("received_at", { ascending: false })` */
  function ByReceivedAt(f: Founder): Value { FounderCell(f, FounderReceivedAtCol) }

  /**
   * `loadRecentFounders()`: None when no id is stored (no query is made); otherwise
   * the founders of the first five stored ids, in stored order, missing ones dropped.
   * `data` is the database's answer to the query.
   */
  function LoadRecent(table: seq<Founder>, stored: seq<int>, data: seq<Founder>): (r: Option<seq<Founder>>)
    requires IsOrdering(data, RecentRows(table, Take(stored, LoadCap)), ByReceivedAt, false)
    ensures r.None? <==> stored == []
    ensures r.Some? ==> |r.value| <= LoadCap && IsSubsequence(Ids(r.value), Take(stored, LoadCap))
    ensures r.Some? ==> forall f :: f in r.value ==> f in table && f.founderId in Take(stored, LoadCap)
    ensures r.Some? ==> forall k :: 0 <= k < |stored| && k < LoadCap && (exists f :: f in table && f.founderId == stored[k])
                         ==> exists g :: g in r.value && g.founderId == stored[k]
  {
    var ids := Take(stored, LoadCap);
    if |ids| == 0 then None
    else
      OrderingMembers(data, RecentRows(table, ids), ByReceivedAt, false);
      forall k | 0 <= k < |ids| && (exists f :: f in table && f.founderId == ids[k])
        ensures FindById(data, ids[k]).Some?
      {
        var f :| f in table && f.founderId == ids[k];
        assert f in RecentRows(table, ids);
        var i :| 0 <= i < |data| && data[i] == f;
      }
      Some(InStoredOrder(ids, data))
  }

  /** `name.ilike.%t%,contact.ilike.%t%,business_type.ilike.%t%` */
  const SearchColumns: seq<FounderColumn> := [FounderNameCol, ContactCol, FounderBusinessTypeCol]

  predicate SearchHit(f: Founder, term: string) {
    || (f.name.Some? && ContainsCI(f.name.value, term))
    || (f.contact.Some? && ContainsCI(f.contact.value, term))
    || (f.businessType.Some? && ContainsCI(f.businessType.value, term))
  }

  /** The search's `or(...)` filter selects exactly the founders whose name, contact or business type contains the term. */
  lemma SearchOpMeaning(f: Founder, term: string)
    ensures FounderMatches(f, [AnyILike(SearchColumns, term)]) <==> SearchHit(f, term)
  {
    var cell := c => FounderCell(f, c);
    var op := AnyILike(SearchColumns, term);
    assert [op][0] == op;
    if SearchHit(f, term) {
      var i := if f.name.Some? && ContainsCI(f.name.value, term) then 0
               else if f.contact.Some? && ContainsCI(f.contact.value, term) then 1 else 2;
      assert ILike(cell(SearchColumns[i]), term);
    }
  }

  function SearchListing(table: seq<Founder>, term: string): (r: seq<Founder>)
    ensures forall f :: f in r <==> f in table && SearchHit(f, term)
  {
    forall f ensures FounderMatches(f, [AnyILike(SearchColumns, term)]) <==> SearchHit(f, term) {
      SearchOpMeaning(f, term);
    }
    Filter(table, (f: Founder) => FounderMatches(f, [AnyILike(SearchColumns, term)]))
  }

  /**
   * `searchFounders(term)`: a blank term gives no rows and no query; otherwise the ten
   * most recently received matches. `ordered` is the database's order of the matches.
   */
  function Search(table: seq<Founder>, term: string, ordered: seq<Founder>): (r: seq<Founder>)
    requires !IsBlank(term) ==> IsOrdering(ordered, SearchListing(table, term), ByReceivedAt, false)
    ensures IsBlank(term) ==> r == []
    ensures |r| <= SearchLimit
    ensures !IsBlank(term) ==> |r| == Min(SearchLimit, |SearchListing(table, term)|) && |r| <= |ordered| && r == ordered[..|r|]
    ensures forall f :: f in r ==> f in table && SearchHit(f, term)
  {
    TrimEmptyIffBlank(term);
    if Trim(term) == "" then []
    else
      OrderingMembers(ordered, SearchListing(table, term), ByReceivedAt, false);
      var r := Take(ordered, SearchLimit);
      assert forall f :: f in r ==> f in ordered;
      r
  }

  /** The picker's two tabs, `"search" | "recent"`. */
  datatype Tab = SearchTab | RecentTab

  /** The part of the picker the search-term effect writes. */
  datatype SearchView = SearchView(founders: seq<Founder>, tab: Tab)

  /**
   * The search-term effect as the component is written. `useDebounce(searchTerm, 300)`
   * returns a debounced function, not a string, so `if (debouncedSearch)` always holds
   * and `searchFounders` receives that function. Its `term.trim()` fails before any state
   * is written, so only `setActiveTab("search")` takes effect.
   */
  function SearchEffectAsWritten(view: SearchView): (r: SearchView)
    ensures r.founders == view.founders && r.tab == SearchTab
  {
    view.(tab := SearchTab)
  }

  /**
   * The search-term effect as intended, with `debouncedSearch` the typed term: an empty
   * term clears the list; any other term opens the search tab and shows `searchFounders(term)`.
   */
  function SearchEffect(view: SearchView, table: seq<Founder>, term: string, ordered: seq<Founder>): (r: SearchView)
    requires !IsBlank(term) ==> IsOrdering(ordered, SearchListing(table, term), ByReceivedAt, false)
    ensures term == "" ==> r == view.(founders := [])
    ensures term != "" ==> r.tab == SearchTab && r.founders == Search(table, term, ordered)
    ensures forall f :: f in r.founders ==> f in table && SearchHit(f, term)
  {
    if term == "" then view.(founders := [])
    else SearchView(Search(table, term, ordered), SearchTab)
  }

  /** A non-blank term that some founder hits shows at least one founder. */
  lemma SearchEffectShowsHits(view: SearchView, table: seq<Founder>, term: string, ordered: seq<Founder>, f: Founder)
    requires !IsBlank(term) && IsOrdering(ordered, SearchListing(table, term), ByReceivedAt, false)
    requires f in table && SearchHit(f, term)
    ensures SearchEffect(view, table, term, ordered).founders != []
  {
    assert f in SearchListing(table, term);
  }

  /**
   * The effect as written never shows a match, and leaves the recent tab on mount. With
   * a founder that hits a non-blank term, the intended effect lists it while the written
   * one keeps the empty list; with the initial empty term, the intended effect keeps the
   * recent tab while the written one switches to search.
   */
  lemma AsWrittenSearchShowsNothing(table: seq<Founder>, term: string, ordered: seq<Founder>, f: Founder)
    requires !IsBlank(term) && IsOrdering(ordered, SearchListing(table, term), ByReceivedAt, false)
    requires f in table && SearchHit(f, term)
    ensures SearchEffectAsWritten(SearchView([], RecentTab)).founders == []
    ensures SearchEffect(SearchView([], RecentTab), table, term, ordered).founders != []
    ensures SearchEffectAsWritten(SearchView([], RecentTab)).tab == SearchTab
    ensures SearchEffect(SearchView([], RecentTab), table, "", ordered).tab == RecentTab
  {
    SearchEffectShowsHits(SearchView([], RecentTab), table, term, ordered, f);
  }

  /** The picker's state and the stored list of recently chosen founder ids. */
  class Picker {
    var isOpen: bool
    var searchTerm: string
    var founders: seq<Founder>
    var recentFounders: seq<Founder>
    /** `recentFounderIds` in local storage; a missing key reads as `[]`. */
    var storedRecentIds: seq<int>
    /** The last id handed to the parent's `onSelect`. */
    var selected: Option<int>
    var activeTab: Tab

    constructor (stored: seq<int>)
      ensures !isOpen && searchTerm == "" && founders == [] && recentFounders == []
      ensures storedRecentIds == stored && selected == None && activeTab == RecentTab
    {
      isOpen := false;
      searchTerm := "";
      founders := [];
      recentFounders := [];
      storedRecentIds := stored;
      selected := None;
      activeTab := RecentTab;
    }

    /** The search box: `setSearchTerm(e.target.value)`. */
    method TypeTerm(term: string)
      modifies this
      ensures searchTerm == term
      ensures isOpen == old(isOpen) && founders == old(founders) && recentFounders == old(recentFounders)
      ensures storedRecentIds == old(storedRecentIds) && selected == old(selected) && activeTab == old(activeTab)
    {
      searchTerm := term;
    }

    /** The tab buttons: `setActiveTab(tab)`. */
    method ChooseTab(tab: Tab)
      modifies this
      ensures activeTab == tab
      ensures isOpen == old(isOpen) && searchTerm == old(searchTerm) && founders == old(founders)
      ensures recentFounders == old(recentFounders) && storedRecentIds == old(storedRecentIds) && selected == old(selected)
    {
      activeTab := tab;
    }

    /** The search-term effect as the component is written (see `SearchEffectAsWritten`). */
    method SearchTermEffectAsWritten()
      modifies this
      ensures SearchView(founders, activeTab) == SearchEffectAsWritten(old(SearchView(founders, activeTab)))
      ensures isOpen == old(isOpen) && searchTerm == old(searchTerm) && recentFounders == old(recentFounders)
      ensures storedRecentIds == old(storedRecentIds) && selected == old(selected)
    {
      activeTab := SearchTab;
    }

    /** The search-term effect as intended, over the typed term (see `SearchEffect`). */
    method SearchTermEffect(table: seq<Founder>, ordered: seq<Founder>)
      requires !IsBlank(searchTerm) ==> IsOrdering(ordered, SearchListing(table, searchTerm), ByReceivedAt, false)
      modifies this
      ensures isOpen == old(isOpen) && searchTerm == old(searchTerm) && recentFounders == old(recentFounders)
      ensures storedRecentIds == old(storedRecentIds) && selected == old(selected)
      ensures SearchView(founders, activeTab) == SearchEffect(SearchView(old(founders), old(activeTab)), table, searchTerm, ordered)
    {
      if searchTerm == "" {
        founders := [];
      } else {
        founders := Search(table, searchTerm, ordered);
        activeTab := SearchTab;
      }
    }

    /** `searchFounders(term)` writing the result list. */
    method SearchFounders(table: seq<Founder>, term: string, ordered: seq<Founder>)
      requires !IsBlank(term) ==> IsOrdering(ordered, SearchListing(table, term), ByReceivedAt, false)
      modifies this
      ensures founders == Search(table, term, ordered)
      ensures isOpen == old(isOpen) && searchTerm == old(searchTerm) && recentFounders == old(recentFounders)
      ensures storedRecentIds == old(storedRecentIds) && selected == old(selected) && activeTab == old(activeTab)
    {
      founders := Search(table, term, ordered);
    }

    /** `loadRecentFounders()`: nothing changes when no id is stored. */
    method LoadRecentFounders(table: seq<Founder>, data: seq<Founder>)
      requires IsOrdering(data, RecentRows(table, Take(storedRecentIds, LoadCap)), ByReceivedAt, false)
      modifies this
      ensures storedRecentIds == old(storedRecentIds) && selected == old(selected)
      ensures storedRecentIds == [] ==> recentFounders == old(recentFounders)
      ensures storedRecentIds != [] ==> recentFounders == LoadRecent(table, storedRecentIds, data).value
      ensures isOpen == old(isOpen) && searchTerm == old(searchTerm) && founders == old(founders)
      ensures activeTab == old(activeTab)
    {
      var loaded := LoadRecent(table, storedRecentIds, data);
      if loaded.Some? {
        recentFounders := loaded.value;
      }
    }

    /** `handleSelect(founder)`: report the choice, close the picker, clear the term, move the id to the front. */
    method HandleSelect(chosen: Founder)
      modifies this
      ensures selected == Some(chosen.founderId)
      ensures !isOpen && searchTerm == ""
      ensures storedRecentIds == SelectRecent(old(storedRecentIds), chosen.founderId)
      ensures founders == old(founders) && recentFounders == old(recentFounders) && activeTab == old(activeTab)
    {
      selected := Some(chosen.founderId);
      isOpen := false;
      searchTerm := "";
      storedRecentIds := SelectRecent(storedRecentIds, chosen.founderId);
    }
  }
}
