/**
 * src/components/match/PropertyFilter.tsx: the filter panel's edits of a
 * `PropertyFilter`, its saved presets (mirrored to local storage) and the badge count.
 */
module PropertyFilterPanel {
  import opened Wrappers
  import opened Seqs
  import opened Strings
  import opened Types
  import FetchProperties

  /** `field: "area" | "deposit" | "rent" | "premium"` */
  datatype RangeField = AreaRange | DepositRange | RentRange | PremiumRange

  /** `type: "min" | "max"` */
  datatype Bound = Min | Max

  function RangeOf(f: PropertyFilter, field: RangeField): Option<NumRange> {
    match field
    case AreaRange => f.area
    case DepositRange => f.deposit
    case RentRange => f.rent
    case PremiumRange => f.premium
  }

  function BoundOf(r: Option<NumRange>, b: Bound): Option<real> {
    match b
    case Min => MinOf(r)
    case Max => MaxOf(r)
  }

  /** `value === "" ? undefined : Number(value)` */
  function InputValue(input: NumericInput): Option<real> {
    match input
    case Blank => None
    case Entered(n) => Some(n)
  }

  /** `{ ...filter, [field]: { ...filter[field], [type]: numValue } }` */
  function RangeChange(f: PropertyFilter, field: RangeField, b: Bound, input: NumericInput): (r: PropertyFilter)
    ensures BoundOf(RangeOf(r, field), b) == InputValue(input)
    ensures forall other: Bound :: other != b ==> BoundOf(RangeOf(r, field), other) == BoundOf(RangeOf(f, field), other)
    ensures forall other: RangeField :: other != field ==> RangeOf(r, other) == RangeOf(f, other)
    ensures r.(area := f.area, deposit := f.deposit, rent := f.rent, premium := f.premium) == f
  {
    var old_ := RangeOf(f, field);
    var range := match b
      case Min => NumRange(InputValue(input), MaxOf(old_))
      case Max => NumRange(MinOf(old_), InputValue(input));
    match field
    case AreaRange => f.(area := Some(range))
    case DepositRange => f.(deposit := Some(range))
    case RentRange => f.(rent := Some(range))
    case PremiumRange => f.(premium := Some(range))
  }

  /** Editing the same bound twice keeps only the second edit. */
  lemma RangeLastEditWins(f: PropertyFilter, field: RangeField, b: Bound, first: NumericInput, second: NumericInput)
    ensures RangeChange(RangeChange(f, field, b, first), field, b, second) == RangeChange(f, field, b, second)
  {
  }

  /** Typing 0 lists the same properties as clearing the box: a zero bound is falsy. */
  lemma {:induction false} ZeroEntryIsCleared(p: Property, keyword: string, f: PropertyFilter, field: RangeField, b: Bound)
    ensures FetchProperties.Listed(p, keyword, RangeChange(f, field, b, Entered(0.0)))
        <==> FetchProperties.Listed(p, keyword, RangeChange(f, field, b, Blank))
  {
    var z := RangeChange(f, field, b, Entered(0.0));
    var c := RangeChange(f, field, b, Blank);
    forall g: RangeField ensures
      FetchProperties.InRange(RangeValue(p, g), RangeOf(z, g)) <==> FetchProperties.InRange(RangeValue(p, g), RangeOf(c, g))
    {
      if g == field {
        FetchProperties.ZeroBoundIsNoBound(RangeValue(p, g), BoundOf(RangeOf(f, field), Max));
        FetchProperties.ZeroBoundIsNoBound(RangeValue(p, g), None);
        if b == Max {
          assert FetchProperties.InRange(RangeValue(p, g), RangeOf(z, g)) <==>
                 FetchProperties.InRange(RangeValue(p, g), Some(NumRange(MinOf(RangeOf(f, field)), None)));
        }
      }
    }
    assert RangeValue(p, AreaRange) == p.area && RangeValue(p, DepositRange) == p.deposit;
    assert RangeValue(p, RentRange) == p.rent && RangeValue(p, PremiumRange) == p.premium;
  }

  /** The property column a range field constrains. */
  function RangeValue(p: Property, field: RangeField): Option<real> {
    match field
    case AreaRange => p.area
    case DepositRange => p.deposit
    case RentRange => p.rent
    case PremiumRange => p.premium
  }

  /** `filter.floors || []` */
  function FloorsOf(f: PropertyFilter): seq<string> {
    f.floors.GetOr([])
  }

  /** `handleFloorToggle(floor)`: remove a selected floor, append an unselected one; never `[]`. */
  function FloorToggle(f: PropertyFilter, floor: string): (r: PropertyFilter)
    ensures r.floors != Some([])
    ensures floor in FloorsOf(r) <==> floor !in FloorsOf(f)
    ensures forall x :: x != floor ==> (x in FloorsOf(r) <==> x in FloorsOf(f))
    ensures NoDuplicates(FloorsOf(f)) ==> NoDuplicates(FloorsOf(r))
    ensures r.(floors := f.floors) == f
  {
    var next := Toggle(FloorsOf(f), floor);
    f.(floors := if |next| > 0 then Some(next) else None)
  }

  /** Toggling a floor twice restores the selection; an unselected floor leaves it exactly as it was. */
  lemma FloorToggleTwice(f: PropertyFilter, floor: string)
    ensures forall x :: x in FloorsOf(FloorToggle(FloorToggle(f, floor), floor)) <==> x in FloorsOf(f)
    ensures floor !in FloorsOf(f) ==> FloorsOf(FloorToggle(FloorToggle(f, floor), floor)) == FloorsOf(f)
  {
    ToggleTwice(FloorsOf(f), floor);
  }

  /** `applyPreset(preset)`: the filter becomes the preset's. */
  function ApplyPreset(preset: FilterPreset): PropertyFilter {
    preset.filter
  }

  /** `[...presets, newPreset]` with a copy of the current filter. */
  function AppendPreset(presets: seq<FilterPreset>, id: string, name: string, f: PropertyFilter, createdAt: string): (r: seq<FilterPreset>)
    ensures |r| == |presets| + 1 && r[..|presets|] == presets
    ensures r[|presets|].name == name && r[|presets|].id == id
  {
    presets + [FilterPreset(id, name, f, createdAt)]
  }

  /** Applying a preset just saved gives back the filter it was saved from. */
  lemma SaveThenApply(presets: seq<FilterPreset>, id: string, name: string, f: PropertyFilter, createdAt: string)
    ensures ApplyPreset(AppendPreset(presets, id, name, f, createdAt)[|presets|]) == f
  {
  }

  /** `presets.filter(p => p.id !== id)` */
  function RemovePreset(presets: seq<FilterPreset>, id: string): (r: seq<FilterPreset>)
    ensures forall p :: p in r <==> p in presets && p.id != id
    ensures IsSubsequence(r, presets)
    ensures (forall p :: p in presets ==> p.id != id) ==> r == presets
    decreases |presets|
  {
    if presets == [] then []
    else if presets[0].id == id then RemovePreset(presets[1..], id)
    else
      var rest := RemovePreset(presets[1..], id);
      assert (forall p :: p in presets ==> p.id != id) ==> [presets[0]] + rest == presets by {
        if forall p :: p in presets ==> p.id != id {
          assert forall p :: p in presets[1..] ==> p in presets;
          assert presets == [presets[0]] + presets[1..];
        }
      }
      assert ([presets[0]] + rest)[1..] == rest;
      [presets[0]] + rest
  }

  /** `r?.min || r?.max`: a range counts when either bound is truthy. */
  predicate RangeSet(r: Option<NumRange>) {
    TruthyNum(MinOf(r)) || TruthyNum(MaxOf(r))
  }

  /** 1 for a group that counts, 0 for one that does not. */
  function Ind(b: bool): nat { if b then 1 else 0 }

  /**
   * The number of active groups among the badge's nine: the area, deposit, rent and
   * premium ranges, the floors, the keyword, the province, the district and the
   * business types.
   */
  function ActiveGroups(f: PropertyFilter): nat {
    Ind(RangeSet(f.area)) + Ind(RangeSet(f.deposit)) + Ind(RangeSet(f.rent)) + Ind(RangeSet(f.premium))
    + Ind(NonEmptyList(f.floors)) + Ind(TruthyText(f.keyword)) + Ind(TruthyText(f.sido))
    + Ind(TruthyText(f.sigungu)) + Ind(NonEmptyList(f.businessTypes))
  }

  /** `getActiveFilterCount()`: each active group adds one, so the badge shows 0 to 9. */
  method ActiveFilterCount(f: PropertyFilter) returns (count: nat)
    ensures count == ActiveGroups(f)
  {
    var area, deposit, rent, premium := RangeSet(f.area), RangeSet(f.deposit), RangeSet(f.rent), RangeSet(f.premium);
    var floors, keyword := NonEmptyList(f.floors), TruthyText(f.keyword);
    var sido, sigungu, businessTypes := TruthyText(f.sido), TruthyText(f.sigungu), NonEmptyList(f.businessTypes);
    assert ActiveGroups(f) == Ind(area) + Ind(deposit) + Ind(rent) + Ind(premium) + Ind(floors)
      + Ind(keyword) + Ind(sido) + Ind(sigungu) + Ind(businessTypes);
    var n := 0;
    if area { n := n + 1; }
    if deposit { n := n + 1; }
    if rent { n := n + 1; }
    if premium { n := n + 1; }
    if floors { n := n + 1; }
    if keyword { n := n + 1; }
    if sido { n := n + 1; }
    if sigungu { n := n + 1; }
    if businessTypes { n := n + 1; }
    count := n;
  }

  /** Typing a non-zero bound into an unset range adds that range to the count. */
  lemma RangeEditCounts(f: PropertyFilter, field: RangeField, b: Bound, n: real)
    requires n != 0.0 && !RangeSet(RangeOf(f, field))
    ensures ActiveGroups(RangeChange(f, field, b, Entered(n))) == ActiveGroups(f) + 1
  {
  }

  /** Clearing the last bound of a range takes it out of the count. */
  lemma ClearingRangeUncounts(f: PropertyFilter, field: RangeField, b: Bound)
    requires RangeSet(RangeOf(f, field)) && !TruthyNum(BoundOf(RangeOf(f, field), if b == Min then Max else Min))
    ensures ActiveGroups(RangeChange(f, field, b, Blank)) == ActiveGroups(f) - 1
  {
  }

  /** A floor toggle moves the count by at most one. */
  lemma FloorToggleCounts(f: PropertyFilter, floor: string)
    ensures var g := ActiveGroups(FloorToggle(f, floor));
            g == ActiveGroups(f) || g == ActiveGroups(f) + 1 || g + 1 == ActiveGroups(f)
    ensures floor !in FloorsOf(f) ==> NonEmptyList(FloorToggle(f, floor).floors)
  {
  }

  /** The badge is 0 exactly when no group is active, and 9 exactly when every group is. */
  lemma CountExtremes(f: PropertyFilter)
    ensures ActiveGroups(f) <= 9
    ensures ActiveGroups(f) == 0 <==>
              && !RangeSet(f.area) && !RangeSet(f.deposit) && !RangeSet(f.rent) && !RangeSet(f.premium)
              && !NonEmptyList(f.floors) && !TruthyText(f.keyword) && !TruthyText(f.sido)
              && !TruthyText(f.sigungu) && !NonEmptyList(f.businessTypes)
    ensures ActiveGroups(f) == 9 <==>
              && RangeSet(f.area) && RangeSet(f.deposit) && RangeSet(f.rent) && RangeSet(f.premium)
              && NonEmptyList(f.floors) && TruthyText(f.keyword) && TruthyText(f.sido)
              && TruthyText(f.sigungu) && NonEmptyList(f.businessTypes)
  {
  }

  /** A range whose bounds are both 0 or missing is not counted. */
  lemma ZeroRangeNotCounted(r: Option<NumRange>)
    requires MinOf(r) in {None, Some(0.0)} && MaxOf(r) in {None, Some(0.0)}
    ensures !RangeSet(r)
  {
  }

  /** The panel's presets, mirrored under the `filterPresets` key of local storage. */
  class PresetPanel {
    var presets: seq<FilterPreset>
    var presetName: string
    var showSavePreset: bool
    /** The value stored under `filterPresets`, absent until something is written. */
    var stored: Option<seq<FilterPreset>>

    /** The stored list, when there is one, is the list on screen. */
    ghost predicate Valid()
      reads this
    {
      stored.Some? ==> stored.value == presets
    }

    /** Mounting reads the stored presets, if any. */
    constructor (saved: Option<seq<FilterPreset>>)
      ensures Valid()
      ensures presets == saved.GetOr([]) && stored == saved
      ensures presetName == "" && !showSavePreset
    {
      presets := saved.GetOr([]);
      stored := saved;
      presetName := "";
      showSavePreset := false;
    }

    /** `savePreset()`: nothing for a blank name; otherwise append, store and close the form. */
    method SavePreset(f: PropertyFilter, id: string, createdAt: string)
      requires Valid()
      modifies this
      ensures Valid()
      ensures IsBlank(old(presetName)) ==>
                && presets == old(presets) && stored == old(stored)
                && presetName == old(presetName) && showSavePreset == old(showSavePreset)
      ensures !IsBlank(old(presetName)) ==>
                && presets == AppendPreset(old(presets), id, old(presetName), f, createdAt)
                && stored == Some(presets)
                && presetName == "" && !showSavePreset
    {
      TrimEmptyIffBlank(presetName);
      if Trim(presetName) == "" {
        return;
      }
      presets := AppendPreset(presets, id, presetName, f, createdAt);
      stored := Some(presets);
      presetName := "";
      showSavePreset := false;
    }

    /** `deletePreset(id)`: drop every preset with that id and store the rest. */
    method DeletePreset(id: string)
      requires Valid()
      modifies this
      ensures Valid()
      ensures presets == RemovePreset(old(presets), id)
      ensures stored == Some(presets)
      ensures presetName == old(presetName) && showSavePreset == old(showSavePreset)
    {
      presets := RemovePreset(presets, id);
      stored := Some(presets);
    }
  }
}
