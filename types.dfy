/**
 * The records of src/services/types.ts and the filter records the UI passes around,
 * with the JavaScript truthiness tests the queries use on them.
 */
module Types {
  import opened Wrappers
  import opened Postgrest

  /** A leasable commercial unit (table `properties`). */
  datatype Property = Property(
    propertyId: int,
    propertyCode: Option<string>,
    receivedAt: Option<string>,
    sido: Option<string>,
    sigungu: Option<string>,
    beopjeongdong: Option<string>,
    jibun: Option<string>,
    storeName: Option<string>,
    businessType: Option<string>,
    status: Option<string>,
    floor: Option<string>,
    area: Option<real>,
    deposit: Option<real>,
    rent: Option<real>,
    premium: Option<real>,
    maintenanceFee: Option<real>,
    landlordId: Option<int>,
    businessOwnerId: Option<int>,
    managerId: Option<int>,
    notes: Option<string>,
    youtubeUrl: Option<string>)

  /** A prospective tenant and what they ask for (table `founders`). */
  datatype Founder = Founder(
    founderId: int,
    name: Option<string>,
    contact: Option<string>,
    area: Option<real>,
    deposit: Option<real>,
    rent: Option<real>,
    premium: Option<real>,
    businessType: Option<string>,
    preferredProperty: Option<string>,
    status: Option<string>,
    category: Option<string>,
    floor: Option<string>,
    note: Option<string>,
    receivedAt: Option<string>)

  /** A saved founder/property recommendation (table `matchings`). */
  datatype Matching = Matching(
    matchingId: int,
    founderId: int,
    propertyId: int,
    matchedAt: Option<string>,
    matchMethod: Option<string>,
    status: Option<string>,
    score: Option<real>,
    isFavorite: Option<bool>,
    excludeFromPrint: Option<bool>)

  /** The columns of `properties` that queries filter or sort on. */
  datatype PropertyColumn =
    | PropertyIdCol | PropertyCodeCol | ReceivedAtCol | SidoCol | SigunguCol | BeopjeongdongCol
    | JibunCol | StoreNameCol | BusinessTypeCol | StatusCol | FloorCol | AreaCol | DepositCol
    | RentCol | PremiumCol | NotesCol

  /** The columns of `founders` that queries filter or sort on. */
  datatype FounderColumn =
    | FounderIdCol | FounderNameCol | ContactCol | FounderBusinessTypeCol | FounderStatusCol
    | NoteCol | FounderReceivedAtCol

  function TextValue(v: Option<string>): Value {
    if v.Some? then Str(v.value) else Null
  }

  function NumValue(v: Option<real>): Value {
    if v.Some? then Num(v.value) else Null
  }

  /** The value of one column of a property row. */
  function PropertyCell(p: Property, c: PropertyColumn): Value {
    match c
    case PropertyIdCol => Num(p.propertyId as real)
    case PropertyCodeCol => TextValue(p.propertyCode)
    case ReceivedAtCol => TextValue(p.receivedAt)
    case SidoCol => TextValue(p.sido)
    case SigunguCol => TextValue(p.sigungu)
    case BeopjeongdongCol => TextValue(p.beopjeongdong)
    case JibunCol => TextValue(p.jibun)
    case StoreNameCol => TextValue(p.storeName)
    case BusinessTypeCol => TextValue(p.businessType)
    case StatusCol => TextValue(p.status)
    case FloorCol => TextValue(p.floor)
    case AreaCol => NumValue(p.area)
    case DepositCol => NumValue(p.deposit)
    case RentCol => NumValue(p.rent)
    case PremiumCol => NumValue(p.premium)
    case NotesCol => TextValue(p.notes)
  }

  /** The value of one column of a founder row. */
  function FounderCell(f: Founder, c: FounderColumn): Value {
    match c
    case FounderIdCol => Num(f.founderId as real)
    case FounderNameCol => TextValue(f.name)
    case ContactCol => TextValue(f.contact)
    case FounderBusinessTypeCol => TextValue(f.businessType)
    case FounderStatusCol => TextValue(f.status)
    case NoteCol => TextValue(f.note)
    case FounderReceivedAtCol => TextValue(f.receivedAt)
  }

  /** A property row satisfies a whole query chain. */
  predicate PropertyMatches(p: Property, q: seq<Op<PropertyColumn>>) {
    HoldsAll(c => PropertyCell(p, c), q)
  }

  /** A founder row satisfies a whole query chain. */
  predicate FounderMatches(f: Founder, q: seq<Op<FounderColumn>>) {
    HoldsAll(c => FounderCell(f, c), q)
  }

  /** `if (x)` on a number: neither undefined/null nor 0. */
  predicate TruthyNum(x: Option<real>) {
    x.Some? && x.value != 0.0
  }

  /** `if (s)` on a string: neither undefined/null nor "". */
  predicate TruthyText(s: Option<string>) {
    s.Some? && s.value != ""
  }

  /** `list && list.length > 0` */
  predicate NonEmptyList(s: Option<seq<string>>) {
    s.Some? && |s.value| > 0
  }

  /** `{ min?: number; max?: number }` of the property filter. */
  datatype NumRange = NumRange(min: Option<real>, max: Option<real>)

  /**
   * The filter object of the matching page (`PropertyFilter`), as its uses in
   * PropertyFilter.tsx and lib/fetchProperties.ts read it.
   */
  datatype PropertyFilter = PropertyFilter(
    area: Option<NumRange>,
    deposit: Option<NumRange>,
    rent: Option<NumRange>,
    premium: Option<NumRange>,
    floors: Option<seq<string>>,
    sido: Option<string>,
    sigungu: Option<string>,
    keyword: Option<string>,
    businessTypes: Option<seq<string>>,
    excludeStatus: Option<seq<string>>)

  const EmptyFilter := PropertyFilter(None, None, None, None, None, None, None, None, None, None)

  /** `filter?.f?.min` */
  function MinOf(r: Option<NumRange>): Option<real> {
    if r.Some? then r.value.min else None
  }

  /** `filter?.f?.max` */
  function MaxOf(r: Option<NumRange>): Option<real> {
    if r.Some? then r.value.max else None
  }

  /** A named filter saved in local storage. */
  datatype FilterPreset = FilterPreset(id: string, name: string, filter: PropertyFilter, createdAt: string)

  /** The flat filter record of the property service (`PropertyFilters`). */
  datatype PropertyFilters = PropertyFilters(
    status: Option<string>,
    sido: Option<string>,
    sigungu: Option<string>,
    businessType: Option<string>,
    minArea: Option<real>,
    maxArea: Option<real>,
    minDeposit: Option<real>,
    maxDeposit: Option<real>,
    minRent: Option<real>,
    maxRent: Option<real>,
    keyword: Option<string>)

  const NoFilters := PropertyFilters(None, None, None, None, None, None, None, None, None, None, None)

  /**
   * A numeric text input as the handlers see it: the empty string, or the number
   * `Number(value)` produced for it (parsing itself is not modelled).
   */
  datatype NumericInput = Blank | Entered(n: real)
}
