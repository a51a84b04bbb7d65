/**
 * src/pages/match/create.tsx: the property registration form, its field edits with the
 * numeric coercion, and the record the submit handler inserts.
 */
module CreateProperty {
  import opened Wrappers
  import opened Types

  /** `PropertyFormData`: numeric fields hold a number or the empty string. */
  datatype PropertyForm = PropertyForm(
    storeName: string,
    sido: string,
    sigungu: string,
    beopjeongdong: string,
    jibun: string,
    area: NumericInput,
    deposit: NumericInput,
    rent: NumericInput,
    premium: NumericInput,
    propertyCode: string,
    status: string,
    notes: string)

  /** The form's first state: everything empty, status '접수'. */
  const InitialForm := PropertyForm("", "", "", "", "", Blank, Blank, Blank, Blank, "", "접수", "")

  /** The `name` of an input of the form. */
  datatype FormField =
    | StoreNameField | SidoField | SigunguField | BeopjeongdongField | JibunField
    | AreaField | DepositField | RentField | PremiumField
    | PropertyCodeField | StatusField | NotesField

  /** `["area", "deposit", "rent", "premium"].includes(name)` */
  predicate IsNumericField(name: FormField) {
    name in {AreaField, DepositField, RentField, PremiumField}
  }

  datatype FieldValue = Text(s: string) | Number(n: NumericInput)

  /** `formData[name]` */
  function Get(form: PropertyForm, name: FormField): FieldValue {
    match name
    case StoreNameField => Text(form.storeName)
    case SidoField => Text(form.sido)
    case SigunguField => Text(form.sigungu)
    case BeopjeongdongField => Text(form.beopjeongdong)
    case JibunField => Text(form.jibun)
    case AreaField => Number(form.area)
    case DepositField => Number(form.deposit)
    case RentField => Number(form.rent)
    case PremiumField => Number(form.premium)
    case PropertyCodeField => Text(form.propertyCode)
    case StatusField => Text(form.status)
    case NotesField => Text(form.notes)
  }

  /** A form is fixed by the values of its fields. */
  lemma FormsAgreeOnFields(a: PropertyForm, b: PropertyForm)
    requires forall name :: Get(a, name) == Get(b, name)
    ensures a == b
  {
    assert Get(a, StoreNameField) == Get(b, StoreNameField) && Get(a, SidoField) == Get(b, SidoField);
    assert Get(a, SigunguField) == Get(b, SigunguField) && Get(a, BeopjeongdongField) == Get(b, BeopjeongdongField);
    assert Get(a, JibunField) == Get(b, JibunField) && Get(a, AreaField) == Get(b, AreaField);
    assert Get(a, DepositField) == Get(b, DepositField) && Get(a, RentField) == Get(b, RentField);
    assert Get(a, PremiumField) == Get(b, PremiumField) && Get(a, PropertyCodeField) == Get(b, PropertyCodeField);
    assert Get(a, StatusField) == Get(b, StatusField) && Get(a, NotesField) == Get(b, NotesField);
  }

  /** The value an edit stores: `value === "" ? "" : Number(value)` for numbers, `value` otherwise. */
  function Entry(name: FormField, value: string, number: real): FieldValue {
    if !IsNumericField(name) then Text(value)
    else if value == "" then Number(Blank)
    else Number(Entered(number))
  }

  /**
   * `handleChange(e)` with `e.target` = `{ name, value }`; `number` stands for `Number(value)`.
   * Only the named field changes.
   */
  function HandleChange(form: PropertyForm, name: FormField, value: string, number: real): (r: PropertyForm)
    ensures Get(r, name) == Entry(name, value, number)
    ensures forall other :: other != name ==> Get(r, other) == Get(form, other)
  {
    match name
    case StoreNameField => form.(storeName := value)
    case SidoField => form.(sido := value)
    case SigunguField => form.(sigungu := value)
    case BeopjeongdongField => form.(beopjeongdong := value)
    case JibunField => form.(jibun := value)
    case AreaField => form.(area := Entry(name, value, number).n)
    case DepositField => form.(deposit := Entry(name, value, number).n)
    case RentField => form.(rent := Entry(name, value, number).n)
    case PremiumField => form.(premium := Entry(name, value, number).n)
    case PropertyCodeField => form.(propertyCode := value)
    case StatusField => form.(status := value)
    case NotesField => form.(notes := value)
  }

  /** Of two edits of the same field only the later one is kept. */
  lemma ChangeLastWins(form: PropertyForm, name: FormField, v1: string, n1: real, v2: string, n2: real)
    ensures HandleChange(HandleChange(form, name, v1, n1), name, v2, n2) == HandleChange(form, name, v2, n2)
  {
    var a := HandleChange(HandleChange(form, name, v1, n1), name, v2, n2);
    var b := HandleChange(form, name, v2, n2);
    forall other ensures Get(a, other) == Get(b, other) {
    }
    FormsAgreeOnFields(a, b);
  }

  /** Edits of different fields commute. */
  lemma ChangesCommute(form: PropertyForm, x: FormField, vx: string, nx: real, y: FormField, vy: string, ny: real)
    requires x != y
    ensures HandleChange(HandleChange(form, x, vx, nx), y, vy, ny) == HandleChange(HandleChange(form, y, vy, ny), x, vx, nx)
  {
    var a := HandleChange(HandleChange(form, x, vx, nx), y, vy, ny);
    var b := HandleChange(HandleChange(form, y, vy, ny), x, vx, nx);
    forall other ensures Get(a, other) == Get(b, other) {
    }
    FormsAgreeOnFields(a, b);
  }

  /** The row inserted into `properties`: numbers or null, and the submit time. */
  datatype NewProperty = NewProperty(
    storeName: string,
    sido: string,
    sigungu: string,
    beopjeongdong: string,
    jibun: string,
    area: Option<real>,
    deposit: Option<real>,
    rent: Option<real>,
    premium: Option<real>,
    propertyCode: string,
    status: string,
    notes: string,
    receivedAt: string)

  const RequiredFieldsMessage: string := "상호명과 법정동은 필수 입력 항목입니다."

  /** `x === "" ? null : x`: only the empty entry becomes null; 0 stays 0. */
  function NullIfBlank(x: NumericInput): (r: Option<real>)
    ensures r.None? <==> x.Blank?
    ensures x.Entered? ==> r == Some(x.n)
  {
    match x
    case Blank => None
    case Entered(n) => Some(n)
  }

  /**
   * `handleSubmit`: refused when the store name or the legal district is empty; otherwise
   * the record to insert, with blank numbers as null and `received_at` set to `now`.
   */
  function Submit(form: PropertyForm, now: string): (r: Result<NewProperty, string>)
    ensures r.Failure? <==> form.storeName == "" || form.beopjeongdong == ""
    ensures r.Failure? ==> r.error == RequiredFieldsMessage
    ensures r.Success? ==> r.value.receivedAt == now
  {
    if form.storeName == "" || form.beopjeongdong == "" then Failure(RequiredFieldsMessage)
    else Success(NewProperty(form.storeName, form.sido, form.sigungu, form.beopjeongdong, form.jibun,
                             NullIfBlank(form.area), NullIfBlank(form.deposit), NullIfBlank(form.rent),
                             NullIfBlank(form.premium), form.propertyCode, form.status, form.notes, now))
  }

  /** The form an inserted record came from: null numbers read back as the empty entry. */
  function FormOf(p: NewProperty): PropertyForm {
    PropertyForm(p.storeName, p.sido, p.sigungu, p.beopjeongdong, p.jibun,
                 BlankIfNull(p.area), BlankIfNull(p.deposit), BlankIfNull(p.rent), BlankIfNull(p.premium),
                 p.propertyCode, p.status, p.notes)
  }

  function BlankIfNull(x: Option<real>): NumericInput {
    if x.Some? then Entered(x.value) else Blank
  }

  /** Submitting loses nothing: the inserted record gives the form back. */
  lemma SubmitRoundTrip(form: PropertyForm, now: string)
    requires Submit(form, now).Success?
    ensures FormOf(Submit(form, now).value) == form
  {
    assert BlankIfNull(NullIfBlank(form.area)) == form.area;
    assert BlankIfNull(NullIfBlank(form.deposit)) == form.deposit;
    assert BlankIfNull(NullIfBlank(form.rent)) == form.rent;
    assert BlankIfNull(NullIfBlank(form.premium)) == form.premium;
  }

  /** The untouched form is refused, and so is any form once a required field is cleared. */
  lemma RequiredFieldsGuard(form: PropertyForm, now: string, number: real)
    ensures Submit(InitialForm, now).Failure?
    ensures Submit(HandleChange(form, StoreNameField, "", number), now).Failure?
    ensures Submit(HandleChange(form, BeopjeongdongField, "", number), now).Failure?
  {
  }

  const SubmitFailedMessage: string := "매물 등록 중 오류가 발생했습니다."

  /** The registration page: its form and the rows it has inserted into `properties`. */
  class CreatePage {
    var form: PropertyForm
    var inserted: seq<NewProperty>

    constructor ()
      ensures form == InitialForm && inserted == []
    {
      form := InitialForm;
      inserted := [];
    }

    method Change(name: FormField, value: string, number: real)
      modifies this
      ensures form == HandleChange(old(form), name, value, number)
      ensures inserted == old(inserted)
    {
      form := HandleChange(form, name, value, number);
    }

    /** `handleSubmit`: validation, then one insert; `storeFails` stands for a database error. */
    method HandleSubmit(now: string, storeFails: bool) returns (r: Result<NewProperty, string>)
      modifies this
      ensures form == old(form)
      ensures Submit(form, now).Failure? ==> r == Submit(form, now) && inserted == old(inserted)
      ensures Submit(form, now).Success? && storeFails ==> r == Failure(SubmitFailedMessage) && inserted == old(inserted)
      ensures Submit(form, now).Success? && !storeFails ==>
                r == Submit(form, now) && inserted == old(inserted) + [r.value]
    {
      r := Submit(form, now);
      if r.Failure? {
        return;
      }
      if storeFails {
        return Failure(SubmitFailedMessage);
      }
      inserted := inserted + [r.value];
    }
  }
}
