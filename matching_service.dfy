/**
 * src/services/matchingService.ts: the `matchings` table of founder/property
 * recommendations, its read path with the joined property normalised, and auto-match.
 */
module MatchingService {
  import opened Wrappers
  import opened Seqs
  import opened Postgrest
  import opened Types
  import FetchProperties
  import FounderService

  /** The method `saveMatchings` writes. */
  const Manual: string := "수동"
  /** The method the match pages write. */
  const Auto: string := "자동"
  /** The status every new recommendation gets. */
  const Recommended: string := "추천"

  /** One row of an insert payload: a matching without its database-assigned id. */
  datatype MatchingDraft = MatchingDraft(
    founderId: int,
    propertyId: int,
    matchedAt: string,
    matchMethod: string,
    status: string,
    score: real,
    isFavorite: bool,
    excludeFromPrint: bool)

  /** The payload `propertyIds.map(...)`: a fresh recommendation per property id, one timestamp. */
  function Payload(founderId: int, propertyIds: seq<int>, now: string, via: string): (r: seq<MatchingDraft>)
    ensures |r| == |propertyIds|
    ensures forall k :: 0 <= k < |r| ==>
      r[k] == MatchingDraft(founderId, propertyIds[k], now, via, Recommended, 0.0, false, false)
  {
    seq(|propertyIds|, k requires 0 <= k < |propertyIds| =>
      MatchingDraft(founderId, propertyIds[k], now, via, Recommended, 0.0, false, false))
  }

  /** The row the database stores for a draft, given the id it assigns. */
  function Stored(d: MatchingDraft, id: int): Matching {
    Matching(id, d.founderId, d.propertyId, Some(d.matchedAt), Some(d.matchMethod), Some(d.status),
             Some(d.score), Some(d.isFavorite), Some(d.excludeFromPrint))
  }

  /** Some row links founder `f` and property `p`. */
  predicate HasPair(rows: seq<Matching>, f: int, p: int) {
    exists k :: 0 <= k < |rows| && rows[k].founderId == f && rows[k].propertyId == p
  }

  /** Each (founder, property) pair occurs at most once: the conflict key is unique. */
  ghost predicate PairsUnique(rows: seq<Matching>) {
    forall i, j :: 0 <= i < j < |rows| ==>
      rows[i].founderId != rows[j].founderId || rows[i].propertyId != rows[j].propertyId
  }

  /** Matching ids are unique and below `nextId`, the next value of the id sequence. */
  ghost predicate IdsBelow(rows: seq<Matching>, nextId: int) {
    && (forall i, j :: 0 <= i < j < |rows| ==> rows[i].matchingId != rows[j].matchingId)
    && (forall k :: 0 <= k < |rows| ==> rows[k].matchingId < nextId)
  }

  /**
   * `upsert(drafts, { onConflict: 'founder_id,property_id', ignoreDuplicates: true })`:
   * drafts are inserted in order, each skipped when its pair is already present (also from
   * an earlier draft of the same payload). Draft `k` draws id `firstId + k` from the
   * sequence whether or not it is inserted.
   */
  function Upsert(rows: seq<Matching>, firstId: int, drafts: seq<MatchingDraft>): seq<Matching>
    decreases |drafts|
  {
    if drafts == [] then rows
    else
      var prev := Upsert(rows, firstId, drafts[..|drafts| - 1]);
      var d := drafts[|drafts| - 1];
      if HasPair(prev, d.founderId, d.propertyId) then prev
      else prev + [Stored(d, firstId + |drafts| - 1)]
  }

  /** Rows that were there before the upsert are kept, unchanged and in place. */
  lemma {:induction false} UpsertKeepsRows(rows: seq<Matching>, firstId: int, drafts: seq<MatchingDraft>)
    ensures |Upsert(rows, firstId, drafts)| >= |rows|
    ensures Upsert(rows, firstId, drafts)[..|rows|] == rows
    decreases |drafts|
  {
    if drafts != [] {
      UpsertKeepsRows(rows, firstId, drafts[..|drafts| - 1]);
    }
  }

  /**
   * After the upsert every pair of the payload is present, and every row is an old one or
   * the stored form of a draft.
   */
  lemma {:induction false} UpsertContents(rows: seq<Matching>, firstId: int, drafts: seq<MatchingDraft>)
    ensures forall k :: 0 <= k < |drafts| ==> HasPair(Upsert(rows, firstId, drafts), drafts[k].founderId, drafts[k].propertyId)
    ensures forall m :: m in Upsert(rows, firstId, drafts) ==>
              m in rows || exists k :: 0 <= k < |drafts| && m == Stored(drafts[k], firstId + k)
    decreases |drafts|
  {
    if drafts != [] {
      var init := drafts[..|drafts| - 1];
      var prev := Upsert(rows, firstId, init);
      var d := drafts[|drafts| - 1];
      UpsertContents(rows, firstId, init);
      var r := Upsert(rows, firstId, drafts);
      assert |r| >= |prev| && r[..|prev|] == prev;
      forall k | 0 <= k < |drafts| ensures HasPair(r, drafts[k].founderId, drafts[k].propertyId) {
        if k < |init| {
          assert drafts[k] == init[k];
          var j :| 0 <= j < |prev| && prev[j].founderId == init[k].founderId && prev[j].propertyId == init[k].propertyId;
          assert r[j] == prev[j];
        } else if !HasPair(prev, d.founderId, d.propertyId) {
          assert r[|prev|] == Stored(d, firstId + |drafts| - 1);
        }
      }
      forall m | m in r ensures m in rows || exists k :: 0 <= k < |drafts| && m == Stored(drafts[k], firstId + k) {
        if m in prev {
          if !(m in rows) {
            var k :| 0 <= k < |init| && m == Stored(init[k], firstId + k);
            assert drafts[k] == init[k];
          }
        } else {
          assert m == Stored(drafts[|drafts| - 1], firstId + |drafts| - 1);
        }
      }
    }
  }

  /** An upsert keeps the pair key unique and draws fresh, increasing matching ids. */
  lemma {:induction false} UpsertValid(rows: seq<Matching>, firstId: int, drafts: seq<MatchingDraft>)
    requires PairsUnique(rows) && IdsBelow(rows, firstId)
    ensures PairsUnique(Upsert(rows, firstId, drafts))
    ensures IdsBelow(Upsert(rows, firstId, drafts), firstId + |drafts|)
    decreases |drafts|
  {
    if drafts != [] {
      var init := drafts[..|drafts| - 1];
      var prev := Upsert(rows, firstId, init);
      var d := drafts[|drafts| - 1];
      UpsertValid(rows, firstId, init);
      if !HasPair(prev, d.founderId, d.propertyId) {
        var r := prev + [Stored(d, firstId + |drafts| - 1)];
        forall i, j | 0 <= i < j < |r| ensures r[i].founderId != r[j].founderId || r[i].propertyId != r[j].propertyId {
          if j == |prev| {
            assert r[i] == prev[i];
          }
        }
      }
    }
  }

  /** An upsert whose pairs are all present already changes nothing. */
  lemma {:induction false} UpsertPresentIsNoop(rows: seq<Matching>, firstId: int, drafts: seq<MatchingDraft>)
    requires forall k :: 0 <= k < |drafts| ==> HasPair(rows, drafts[k].founderId, drafts[k].propertyId)
    ensures Upsert(rows, firstId, drafts) == rows
    decreases |drafts|
  {
    if drafts != [] {
      var init := drafts[..|drafts| - 1];
      forall k | 0 <= k < |init| ensures HasPair(rows, init[k].founderId, init[k].propertyId) {
        assert init[k] == drafts[k];
      }
      UpsertPresentIsNoop(rows, firstId, init);
    }
  }

  /** Saving the same payload twice leaves the same rows as saving it once. */
  lemma UpsertIdempotent(rows: seq<Matching>, firstId: int, secondId: int, drafts: seq<MatchingDraft>)
    ensures Upsert(Upsert(rows, firstId, drafts), secondId, drafts) == Upsert(rows, firstId, drafts)
  {
    UpsertContents(rows, firstId, drafts);
    UpsertPresentIsNoop(Upsert(rows, firstId, drafts), secondId, drafts);
  }

  /**
   * After saving, each pair of the payload is held by exactly one row, and the rows
   * that were there before are still there, unchanged.
   */
  lemma SavedPairHeldOnce(rows: seq<Matching>, firstId: int, drafts: seq<MatchingDraft>, k: int)
    requires PairsUnique(rows) && IdsBelow(rows, firstId) && 0 <= k < |drafts|
    ensures var r := Upsert(rows, firstId, drafts);
            && HasPair(r, drafts[k].founderId, drafts[k].propertyId)
            && (forall i, j ::
                  (0 <= i < |r| && 0 <= j < |r|
                   && r[i].founderId == drafts[k].founderId && r[i].propertyId == drafts[k].propertyId
                   && r[j].founderId == drafts[k].founderId && r[j].propertyId == drafts[k].propertyId) ==> i == j)
            && |r| >= |rows| && r[..|rows|] == rows
  {
    UpsertContents(rows, firstId, drafts);
    UpsertValid(rows, firstId, drafts);
    UpsertKeepsRows(rows, firstId, drafts);
  }

  /** `delete().match({ founder_id, property_id })` on a list of rows. */
  function RemovePair(rows: seq<Matching>, f: int, p: int): (r: seq<Matching>)
    ensures !HasPair(r, f, p)
    ensures forall m :: m in r <==> m in rows && !(m.founderId == f && m.propertyId == p)
    ensures IsSubsequence(r, rows)
    ensures !HasPair(rows, f, p) ==> r == rows
    decreases |rows|
  {
    if rows == [] then []
    else
      var rest := RemovePair(rows[1..], f, p);
      assert HasPair(rows[1..], f, p) ==> HasPair(rows, f, p) by {
        if HasPair(rows[1..], f, p) {
          var k :| 0 <= k < |rows[1..]| && rows[1..][k].founderId == f && rows[1..][k].propertyId == p;
          assert rows[k + 1] == rows[1..][k];
        }
      }
      if rows[0].founderId == f && rows[0].propertyId == p then
        assert HasPair(rows, f, p) by { assert rows[0].founderId == f; }
        rest
      else
        var r := [rows[0]] + rest;
        assert !HasPair(r, f, p) by {
          forall k | 0 <= k < |r| ensures !(r[k].founderId == f && r[k].propertyId == p) {
            if k > 0 { assert r[k] == rest[k - 1]; assert r[k] in rest; }
          }
        }
        assert !HasPair(rows, f, p) ==> r == rows by {
          if !HasPair(rows, f, p) { assert rows == [rows[0]] + rows[1..]; }
        }
        assert IsSubsequence(r, rows) by { assert r[1..] == rest; }
        r
  }

  /** The two flags a matching row carries. */
  datatype Flag = IsFavorite | ExcludeFromPrint

  function FlagOf(m: Matching, field: Flag): Option<bool> {
    match field
    case IsFavorite => m.isFavorite
    case ExcludeFromPrint => m.excludeFromPrint
  }

  /** `{ [field]: value }` applied to one row. */
  function WithFlag(m: Matching, field: Flag, value: bool): (r: Matching)
    ensures FlagOf(r, field) == Some(value)
    ensures forall other: Flag :: other != field ==> FlagOf(r, other) == FlagOf(m, other)
    ensures r.(isFavorite := m.isFavorite, excludeFromPrint := m.excludeFromPrint) == m
  {
    match field
    case IsFavorite => m.(isFavorite := Some(value))
    case ExcludeFromPrint => m.(excludeFromPrint := Some(value))
  }

  /** `update({ [field]: value }).eq('matching_id', id)` on a list of rows. */
  function SetFlag(rows: seq<Matching>, id: int, field: Flag, value: bool): (r: seq<Matching>)
    ensures |r| == |rows|
    ensures forall k :: 0 <= k < |rows| ==> r[k] == (if rows[k].matchingId == id then WithFlag(rows[k], field, value) else rows[k])
  {
    seq(|rows|, k requires 0 <= k < |rows| =>
      if rows[k].matchingId == id then WithFlag(rows[k], field, value) else rows[k])
  }

  /** `update({ status }).eq('matching_id', id)` on a list of rows. */
  function SetMatchingStatus(rows: seq<Matching>, id: int, status: string): (r: seq<Matching>)
    ensures |r| == |rows|
    ensures forall k :: 0 <= k < |rows| ==> r[k] == (if rows[k].matchingId == id then rows[k].(status := Some(status)) else rows[k])
  {
    seq(|rows|, k requires 0 <= k < |rows| =>
      if rows[k].matchingId == id then rows[k].(status := Some(status)) else rows[k])
  }

  /** Writing a flag back to the value it had before the first write restores the rows. */
  lemma SetFlagTwiceRestores(rows: seq<Matching>, id: int, field: Flag, value: bool)
    requires forall k :: 0 <= k < |rows| && rows[k].matchingId == id ==> FlagOf(rows[k], field).Some?
    ensures var once := SetFlag(rows, id, field, value);
            forall k :: 0 <= k < |rows| ==>
              SetFlag(once, id, field, FlagOf(rows[k], field).GetOr(false))[k] == rows[k]
  {
  }

  /** Row updates keyed by matching id leave the keys, ids and pairs of every row alone. */
  lemma UpdatesKeepKeys(rows: seq<Matching>, id: int, field: Flag, value: bool, status: string, nextId: int)
    requires PairsUnique(rows) && IdsBelow(rows, nextId)
    ensures PairsUnique(SetFlag(rows, id, field, value)) && IdsBelow(SetFlag(rows, id, field, value), nextId)
    ensures PairsUnique(SetMatchingStatus(rows, id, status)) && IdsBelow(SetMatchingStatus(rows, id, status), nextId)
  {
  }

  // ---- The read path ----

  /** `property:properties(*)` as the join may deliver it: an object, an array or null. */
  datatype JoinedProperty = Single(p: Property) | Several(ps: seq<Property>) | Missing

  /** `RawMatchingRow` */
  datatype RawRow = RawRow(matching: Matching, property: JoinedProperty)

  /** `MatchingWithProperty` */
  datatype RowWithProperty = RowWithProperty(matching: Matching, property: Option<Property>)

  /** `Array.isArray(j) ? j[0] || null : j || null` */
  function NormalizeProperty(j: JoinedProperty): (r: Option<Property>)
    ensures r.None? <==> j.Missing? || (j.Several? && j.ps == [])
    ensures j.Single? ==> r == Some(j.p)
    ensures j.Several? && j.ps != [] ==> r == Some(j.ps[0])
  {
    match j
    case Single(p) => Some(p)
    case Several(ps) => if ps == [] then None else Some(ps[0])
    case Missing => None
  }

  /** The single-or-null value as a join result. */
  function Embed(o: Option<Property>): JoinedProperty {
    if o.Some? then Single(o.value) else Missing
  }

  /** Normalising is a projection: a normalised join normalises to itself. */
  lemma NormalizeIsProjection(j: JoinedProperty)
    ensures NormalizeProperty(Embed(NormalizeProperty(j))) == NormalizeProperty(j)
    ensures forall o :: NormalizeProperty(Embed(o)) == o
  {
  }

  function NormalizeRow(row: RawRow): RowWithProperty {
    RowWithProperty(row.matching, NormalizeProperty(row.property))
  }

  /** `.order('matched_at', { ascending: false })` */
  function ByMatchedAt(m: Matching): Value {
    if m.matchedAt.Some? then Str(m.matchedAt.value) else Null
  }

  /** The rows `.eq('founder_id', founderId)` selects, in table order. */
  function FounderRows(rows: seq<Matching>, founderId: int): (r: seq<Matching>)
    ensures forall m :: m in r <==> m in rows && m.founderId == founderId
  {
    Filter(rows, (m: Matching) => m.founderId == founderId)
  }

  /** The properties a join result carries. */
  function Delivered(j: JoinedProperty): seq<Property> {
    match j
    case Single(p) => [p]
    case Several(ps) => ps
    case Missing => []
  }

  /**
   * `property:properties(*)` joins on `property_id`: whatever `j` carries is a row of
   * `properties` with that id, and it carries nothing only when no such row exists.
   */
  predicate JoinedFrom(j: JoinedProperty, properties: seq<Property>, propertyId: int) {
    && (forall q :: q in Delivered(j) ==> q in properties && q.propertyId == propertyId)
    && (Delivered(j) == [] ==> forall q :: q in properties ==> q.propertyId != propertyId)
  }

  /**
   * `getByFounderId(founderId)`: the founder's matchings, most recent first, each with its
   * joined property normalised. `ordered` is the database's order and `joins[k]` the
   * property delivered with `ordered[k]` from the `properties` table.
   */
  function GetByFounderId(rows: seq<Matching>, properties: seq<Property>, founderId: int,
                          ordered: seq<Matching>, joins: seq<JoinedProperty>): (r: seq<RowWithProperty>)
    requires IsOrdering(ordered, FounderRows(rows, founderId), ByMatchedAt, false)
    requires |joins| == |ordered|
    requires forall k :: 0 <= k < |joins| ==> JoinedFrom(joins[k], properties, ordered[k].propertyId)
    ensures |r| == |ordered|
    ensures forall k :: 0 <= k < |r| ==> r[k] == NormalizeRow(RawRow(ordered[k], joins[k]))
    ensures forall k :: 0 <= k < |r| ==> r[k].matching in rows && r[k].matching.founderId == founderId
    ensures forall i, j :: 0 <= i < j < |r| ==> ValueLe(ByMatchedAt(r[j].matching), ByMatchedAt(r[i].matching))
    ensures forall k :: 0 <= k < |r| && r[k].property.Some? ==>
      r[k].property.value in properties && r[k].property.value.propertyId == r[k].matching.propertyId
    ensures forall k :: 0 <= k < |r| ==>
      (r[k].property.None? <==> forall q :: q in properties ==> q.propertyId != r[k].matching.propertyId)
  {
    OrderingMembers(ordered, FounderRows(rows, founderId), ByMatchedAt, false);
    assert forall k :: 0 <= k < |ordered| ==> ordered[k] in ordered;
    var r := seq(|ordered|, k requires 0 <= k < |ordered| => NormalizeRow(RawRow(ordered[k], joins[k])));
    forall k | 0 <= k < |r|
      ensures r[k].property.Some? ==> r[k].property.value in Delivered(joins[k])
      ensures r[k].property.None? <==> Delivered(joins[k]) == []
      ensures r[k].property.Some? ==> r[k].property.value in properties && r[k].property.value.propertyId == r[k].matching.propertyId
      ensures r[k].property.None? <==> forall q :: q in properties ==> q.propertyId != r[k].matching.propertyId
    {
      assert JoinedFrom(joins[k], properties, ordered[k].propertyId);
      if Delivered(joins[k]) != [] {
        var w := Delivered(joins[k])[0];
        assert w in Delivered(joins[k]);
        assert w in properties && w.propertyId == r[k].matching.propertyId;
      }
    }
    r
  }

  // ---- Auto-match ----

  /** The auto-match query: available listings, then each founder condition when truthy. */
  function AutoMatchOps(f: Founder): seq<Op<PropertyColumn>> {
    var base := [Eq(StatusCol, "available")];
    var area := f.area.GetOr(0.0);
    var banded := if TruthyNum(f.area) then base + [Gte(AreaCol, area * 0.8), Lte(AreaCol, area * 1.2)] else base;
    var dep := Where(banded, TruthyNum(f.deposit), Lte(DepositCol, f.deposit.GetOr(0.0)));
    var rent := Where(dep, TruthyNum(f.rent), Lte(RentCol, f.rent.GetOr(0.0)));
    Where(rent, TruthyText(f.businessType), Eq(BusinessTypeCol, f.businessType.GetOr("")))
  }

  /** A property is an auto-match candidate for a founder, stated on the records' fields. */
  predicate AutoCandidate(p: Property, f: Founder) {
    && p.status == Some("available")
    && (TruthyNum(f.area) ==> p.area.Some? && f.area.value * 0.8 <= p.area.value <= f.area.value * 1.2)
    && (TruthyNum(f.deposit) ==> p.deposit.Some? && p.deposit.value <= f.deposit.value)
    && (TruthyNum(f.rent) ==> p.rent.Some? && p.rent.value <= f.rent.value)
    && (TruthyText(f.businessType) ==> p.businessType == f.businessType)
  }

  lemma BandMeaning(p: Property, f: Founder)
    ensures var base := [Eq(StatusCol, "available")];
            var area := f.area.GetOr(0.0);
            var banded := if TruthyNum(f.area) then base + [Gte(AreaCol, area * 0.8), Lte(AreaCol, area * 1.2)] else base;
            PropertyMatches(p, banded) <==>
              p.status == Some("available")
              && (TruthyNum(f.area) ==> p.area.Some? && f.area.value * 0.8 <= p.area.value <= f.area.value * 1.2)
  {
    var cell := c => PropertyCell(p, c);
    var base := [Eq(StatusCol, "available")];
    var area := f.area.GetOr(0.0);
    assert HoldsAll(cell, base) <==> Holds(cell, base[0]);
    if TruthyNum(f.area) {
      var b := base + [Gte(AreaCol, area * 0.8), Lte(AreaCol, area * 1.2)];
      assert HoldsAll(cell, b) <==> Holds(cell, b[0]) && Holds(cell, b[1]) && Holds(cell, b[2]) by {
        if Holds(cell, b[0]) && Holds(cell, b[1]) && Holds(cell, b[2]) {
          forall i | 0 <= i < |b| ensures Holds(cell, b[i]) { }
        }
      }
    }
  }

  /** The query selects exactly the candidates. */
  lemma {:induction false} AutoMatchMeaning(p: Property, f: Founder)
    ensures PropertyMatches(p, AutoMatchOps(f)) <==> AutoCandidate(p, f)
  {
    var base := [Eq(StatusCol, "available")];
    var area := f.area.GetOr(0.0);
    var banded := if TruthyNum(f.area) then base + [Gte(AreaCol, area * 0.8), Lte(AreaCol, area * 1.2)] else base;
    var dep := Where(banded, TruthyNum(f.deposit), Lte(DepositCol, f.deposit.GetOr(0.0)));
    var rent := Where(dep, TruthyNum(f.rent), Lte(RentCol, f.rent.GetOr(0.0)));
    BandMeaning(p, f);
    FetchProperties.WhereMatches(p, banded, TruthyNum(f.deposit), Lte(DepositCol, f.deposit.GetOr(0.0)));
    FetchProperties.WhereMatches(p, dep, TruthyNum(f.rent), Lte(RentCol, f.rent.GetOr(0.0)));
    FetchProperties.WhereMatches(p, rent, TruthyText(f.businessType), Eq(BusinessTypeCol, f.businessType.GetOr("")));
  }

  function Candidates(properties: seq<Property>, f: Founder): (r: seq<Property>)
    ensures forall p :: p in r <==> p in properties && AutoCandidate(p, f)
  {
    forall p ensures PropertyMatches(p, AutoMatchOps(f)) <==> AutoCandidate(p, f) {
      AutoMatchMeaning(p, f);
    }
    Filter(properties, p => PropertyMatches(p, AutoMatchOps(f)))
  }

  /** A founder asking for 100 ㎡, 5000 deposit, 200 rent and a café gets only such listings. */
  lemma AutoMatchExample(p: Property, f: Founder)
    requires f.area == Some(100.0) && f.deposit == Some(5000.0) && f.rent == Some(200.0)
    requires f.businessType == Some("카페")
    ensures AutoCandidate(p, f) <==>
      && p.status == Some("available")
      && p.area.Some? && 80.0 <= p.area.value <= 120.0
      && p.deposit.Some? && p.deposit.value <= 5000.0
      && p.rent.Some? && p.rent.value <= 200.0
      && p.businessType == Some("카페")
  {
  }

  /** A founder with no truthy requirement is offered every available listing. */
  lemma OpenFounderGetsAllAvailable(p: Property, f: Founder)
    requires !TruthyNum(f.area) && !TruthyNum(f.deposit) && !TruthyNum(f.rent) && !TruthyText(f.businessType)
    ensures AutoCandidate(p, f) <==> p.status == Some("available")
  {
  }

  /** The ids `properties.map(p => p.property_id)`. */
  function PropertyIds(ps: seq<Property>): (r: seq<int>)
    ensures |r| == |ps| && forall k :: 0 <= k < |ps| ==> r[k] == ps[k].propertyId
  {
    seq(|ps|, k requires 0 <= k < |ps| => ps[k].propertyId)
  }

  /**
   * `.eq('founder_id', id).single()`: the founder when exactly one row has the id; no
   * row, or more than one, is an error.
   */
  function FindFounder(founders: seq<Founder>, founderId: int): (r: Option<Founder>)
    ensures r.Some? ==> r.value in founders && r.value.founderId == founderId
    ensures (forall f :: f in founders ==> f.founderId != founderId) ==> r.None?
    ensures forall k ::
              (&& 0 <= k < |founders| && founders[k].founderId == founderId
               && (forall j :: 0 <= j < |founders| && founders[j].founderId == founderId ==> j == k))
              ==> r == Some(founders[k])
    ensures forall i, j ::
              (0 <= i < j < |founders| && founders[i].founderId == founderId && founders[j].founderId == founderId)
              ==> r.None?
  {
    var keep := (f: Founder) => f.founderId == founderId;
    var hits := Filter(founders, keep);
    forall k | 0 <= k < |founders| && founders[k].founderId == founderId &&
               (forall j :: 0 <= j < |founders| && founders[j].founderId == founderId ==> j == k)
      ensures hits == [founders[k]]
    {
      FilterSingle(founders, keep, k);
    }
    forall i, j | 0 <= i < j < |founders| && founders[i].founderId == founderId && founders[j].founderId == founderId
      ensures |hits| >= 2
    {
      FilterTwoHits(founders, keep, i, j);
    }
    if |hits| == 1 then (assert hits[0] in hits; Some(hits[0])) else None
  }

  /** In a founders table with unique ids, every founder is found by its own id. */
  lemma FindFounderInUniqueTable(founders: seq<Founder>, k: int)
    requires FounderService.UniqueIds(founders) && 0 <= k < |founders|
    ensures FindFounder(founders, founders[k].founderId) == Some(founders[k])
  {
  }

  const FounderNotFound: string := "창업자를 찾을 수 없습니다"

  /** The `matchings` table. */
  class MatchingTable {
    var rows: seq<Matching>
    var nextId: int

    ghost predicate Valid()
      reads this
    {
      PairsUnique(rows) && IdsBelow(rows, nextId)
    }

    constructor ()
      ensures Valid() && rows == []
    {
      rows := [];
      nextId := 1;
    }

    /** `saveMatchings(founderId, propertyIds)` with `now` as the timestamp. */
    method SaveMatchings(founderId: int, propertyIds: seq<int>, now: string, via: string)
      requires Valid()
      modifies this
      ensures Valid()
      ensures rows == Upsert(old(rows), old(nextId), Payload(founderId, propertyIds, now, via))
      ensures nextId == old(nextId) + |propertyIds|
    {
      var drafts := Payload(founderId, propertyIds, now, via);
      var firstId := nextId;
      var i := 0;
      while i < |drafts|
        invariant 0 <= i <= |drafts|
        invariant rows == Upsert(old(rows), firstId, drafts[..i])
        invariant nextId == firstId + i
        invariant Valid()
      {
        var d := drafts[i];
        assert drafts[..i + 1][..i] == drafts[..i];
        if !HasPair(rows, d.founderId, d.propertyId) {
          UpsertValid(old(rows), firstId, drafts[..i + 1]);
          rows := rows + [Stored(d, nextId)];
        }
        nextId := nextId + 1;
        i := i + 1;
      }
      assert drafts[..i] == drafts;
    }

    /** `deleteMatching(founderId, propertyId)` */
    method DeleteMatching(founderId: int, propertyId: int)
      requires Valid()
      modifies this
      ensures Valid()
      ensures rows == RemovePair(old(rows), founderId, propertyId)
      ensures nextId == old(nextId)
    {
      var r := RemovePair(rows, founderId, propertyId);
      RemovePairKeepsKeys(rows, founderId, propertyId, nextId);
      rows := r;
    }

    /** `updateFlag(matchingId, field, value)` */
    method UpdateFlag(matchingId: int, field: Flag, value: bool)
      requires Valid()
      modifies this
      ensures Valid()
      ensures rows == SetFlag(old(rows), matchingId, field, value)
      ensures nextId == old(nextId)
    {
      UpdatesKeepKeys(rows, matchingId, field, value, "", nextId);
      rows := SetFlag(rows, matchingId, field, value);
    }

    /** `updateStatus(matchingId, status)` */
    method UpdateStatus(matchingId: int, status: string)
      requires Valid()
      modifies this
      ensures Valid()
      ensures rows == SetMatchingStatus(old(rows), matchingId, status)
      ensures nextId == old(nextId)
    {
      UpdatesKeepKeys(rows, matchingId, IsFavorite, false, status, nextId);
      rows := SetMatchingStatus(rows, matchingId, status);
    }

    /**
     * `autoMatch(founderId)`: fails when the founder cannot be read; otherwise saves the
     * candidates through `saveMatchings` (method '수동') and returns their ids, or
     * returns `[]` and saves nothing. `found` is the order the database returns them in.
     */
    method AutoMatch(founders: seq<Founder>, properties: seq<Property>, founderId: int,
                     found: seq<Property>, now: string) returns (r: Result<seq<int>, string>)
      requires Valid()
      requires FindFounder(founders, founderId).Some? ==>
        multiset(found) == multiset(Candidates(properties, FindFounder(founders, founderId).value))
      modifies this
      ensures Valid()
      ensures FindFounder(founders, founderId).None? ==> r == Failure(FounderNotFound) && rows == old(rows)
      ensures FindFounder(founders, founderId).Some? ==> r == Success(PropertyIds(found))
      ensures FindFounder(founders, founderId).None? || found == [] ==> rows == old(rows)
      ensures FindFounder(founders, founderId).Some? && found != [] ==> rows == Upsert(old(rows), old(nextId), Payload(founderId, PropertyIds(found), now, Manual))
    {
      var founder := FindFounder(founders, founderId);
      if founder.None? {
        return Failure(FounderNotFound);
      }
      if |found| > 0 {
        var ids := PropertyIds(found);
        SaveMatchings(founderId, ids, now, Manual);
        return Success(ids);
      }
      return Success([]);
    }
  }

  /** Deleting rows keeps the pair key and the matching ids unique. */
  lemma {:induction false} RemovePairKeepsKeys(rows: seq<Matching>, f: int, p: int, nextId: int)
    requires PairsUnique(rows) && IdsBelow(rows, nextId)
    ensures PairsUnique(RemovePair(rows, f, p)) && IdsBelow(RemovePair(rows, f, p), nextId)
    decreases |rows|
  {
    if rows != [] {
      var tail := rows[1..];
      TailKeys(rows, nextId);
      RemovePairKeepsKeys(tail, f, p, nextId);
      var rest := RemovePair(tail, f, p);
      if !(rows[0].founderId == f && rows[0].propertyId == p) {
        forall m | m in rest
          ensures m.matchingId != rows[0].matchingId
          ensures m.founderId != rows[0].founderId || m.propertyId != rows[0].propertyId
        {
          var k :| 0 <= k < |tail| && tail[k] == m;
          assert rows[k + 1] == m;
        }
        ConsKeys(rows[0], rest, nextId);
      }
    }
  }

  lemma TailKeys(rows: seq<Matching>, nextId: int)
    requires PairsUnique(rows) && IdsBelow(rows, nextId) && rows != []
    ensures PairsUnique(rows[1..]) && IdsBelow(rows[1..], nextId)
  {
    var tail := rows[1..];
    forall i, j | 0 <= i < j < |tail| ensures tail[i].founderId != tail[j].founderId || tail[i].propertyId != tail[j].propertyId {
      assert tail[i] == rows[i + 1] && tail[j] == rows[j + 1];
    }
    forall i, j | 0 <= i < j < |tail| ensures tail[i].matchingId != tail[j].matchingId {
      assert tail[i] == rows[i + 1] && tail[j] == rows[j + 1];
    }
  }

  lemma ConsKeys(m: Matching, rest: seq<Matching>, nextId: int)
    requires PairsUnique(rest) && IdsBelow(rest, nextId) && m.matchingId < nextId
    requires forall x :: x in rest ==> x.matchingId != m.matchingId
    requires forall x :: x in rest ==> x.founderId != m.founderId || x.propertyId != m.propertyId
    ensures PairsUnique([m] + rest) && IdsBelow([m] + rest, nextId)
  {
    var r := [m] + rest;
    forall i, j | 0 <= i < j < |r| ensures r[i].founderId != r[j].founderId || r[i].propertyId != r[j].propertyId {
      assert r[j] == rest[j - 1];
      if i > 0 { assert r[i] == rest[i - 1]; } else { assert r[j] in rest; }
    }
    forall i, j | 0 <= i < j < |r| ensures r[i].matchingId != r[j].matchingId {
      assert r[j] == rest[j - 1];
      if i > 0 { assert r[i] == rest[i - 1]; } else { assert r[j] in rest; }
    }
    forall k | 0 <= k < |r| ensures r[k].matchingId < nextId {
      if k > 0 { assert r[k] == rest[k - 1]; }
    }
  }
}
