/**
 * The room form shared by the create and edit screens, which carry the same
 * field update, the same validation rules and messages, and the same payload
 * normalisation: a trimmed name of at least three characters, a price that
 * is present, numeric and positive, and a description that is trimmed or
 * sent as null.
 */
module RoomForm {
  import opened Common
  import opened JsStrings

  const NameRequiredMsg := "Название комнаты обязательно"
  const NameTooShortMsg := "Название должно содержать минимум 3 символа"
  const PriceRequiredMsg := "Цена обязательна"
  const PriceInvalidMsg := "Введите корректную цену (больше 0)"

  /** A field's value: the status starts out as a number, while inputs write strings. */
  datatype FieldValue = Num(n: int) | Str(s: string)

  datatype RoomFormData = RoomFormData(name: string, pricePerDay: string, status: FieldValue, description: string)

  datatype RoomField = NameField | PriceField | StatusField | DescriptionField

  const EmptyForm := RoomFormData("", "", Num(0), "")

  /** The error object both screens start with. */
  const InitialErrors: map<RoomField, string> := map[NameField := "", PriceField := "", StatusField := ""]

  /** The value a field holds. */
  function FieldOf(form: RoomFormData, field: RoomField): FieldValue {
    match field
    case NameField => Str(form.name)
    case PriceField => Str(form.pricePerDay)
    case StatusField => form.status
    case DescriptionField => Str(form.description)
  }

  /** `{ ...prev, [name]: value }`: the named field takes the typed string, the others stay. */
  function WithField(form: RoomFormData, field: RoomField, value: string): (r: RoomFormData)
    ensures FieldOf(r, field) == Str(value)
    ensures forall f :: f != field ==> FieldOf(r, f) == FieldOf(form, f)
  {
    match field
    case NameField => form.(name := value)
    case PriceField => form.(pricePerDay := value)
    case StatusField => form.(status := Str(value))
    case DescriptionField => form.(description := value)
  }

  /** A key holds a truthy (non-empty) message. */
  predicate HasError(errors: map<RoomField, string>, field: RoomField) {
    field in errors && errors[field] != ""
  }

  /** `if (errors[name]) setErrors({ ...prev, [name]: "" })`: only that field's message is cleared. */
  function ClearError(errors: map<RoomField, string>, field: RoomField): (r: map<RoomField, string>)
    ensures !HasError(r, field)
    ensures r.Keys == errors.Keys
    ensures forall f :: f in r && f != field ==> r[f] == errors[f]
  {
    if HasError(errors, field) then errors[field := ""] else errors
  }

  /** A price passes: non-empty, `Number` of it is not NaN, and it is above 0. */
  predicate PriceAcceptable(price: string) {
    price != "" && ParseNumber(price).Some? && ParseNumber(price).value > 0.0
  }

  /** The name rule applied to the trimmed name ("" when it passes). */
  function NameMessage(trimmed: string): (message: string)
    ensures message == "" <==> |trimmed| >= 3
    ensures message == NameRequiredMsg <==> trimmed == ""
    ensures message == NameTooShortMsg <==> 1 <= |trimmed| < 3
  {
    if trimmed == "" then NameRequiredMsg
    else if |trimmed| < 3 then NameTooShortMsg
    else ""
  }

  /** The price rule applied to the typed price and `Number` of it ("" when it passes). */
  function PriceMessage(price: string, parsed: Option<real>): (message: string)
    ensures message == "" <==> price != "" && parsed.Some? && parsed.value > 0.0
    ensures message == PriceRequiredMsg <==> price == ""
    ensures message == PriceInvalidMsg <==> price != "" && (parsed.None? || parsed.value <= 0.0)
  {
    if price == "" then PriceRequiredMsg
    else if parsed.None? || parsed.value <= 0.0 then PriceInvalidMsg
    else ""
  }

  /** The error object validation produces: a key, holding its message, exactly for each failing field. */
  function RoomErrors(form: RoomFormData): (errors: map<RoomField, string>)
    ensures errors.Keys <= {NameField, PriceField}
    ensures NameField in errors <==> |Trim(form.name)| < 3
    ensures NameField in errors ==> errors[NameField] == NameMessage(Trim(form.name))
    ensures PriceField in errors <==> !PriceAcceptable(form.pricePerDay)
    ensures PriceField in errors ==> errors[PriceField] == PriceMessage(form.pricePerDay, ParseNumber(form.pricePerDay))
  {
    var nameMessage := NameMessage(Trim(form.name));
    var priceMessage := PriceMessage(form.pricePerDay, ParseNumber(form.pricePerDay));
    var afterName := if nameMessage == "" then map[] else map[NameField := nameMessage];
    if priceMessage == "" then afterName else afterName[PriceField := priceMessage]
  }

  /**
   * `validateroom` / `validateRoom`: the error object is filled in field by
   * field and the flag drops at the first failure.
   */
  method ValidateFields(form: RoomFormData) returns (newErrors: map<RoomField, string>, isValid: bool)
    ensures newErrors == RoomErrors(form)
    ensures isValid <==> newErrors == map[]
  {
    newErrors := map[];
    isValid := true;

    var name := Trim(form.name);
    if name == "" {
      newErrors := newErrors[NameField := NameRequiredMsg];
      isValid := false;
    } else if |name| < 3 {
      newErrors := newErrors[NameField := NameTooShortMsg];
      isValid := false;
    }
    ghost var afterName := newErrors;
    assert afterName == if NameMessage(name) == "" then map[] else map[NameField := NameMessage(name)];

    var price := ParseNumber(form.pricePerDay);
    if form.pricePerDay == "" {
      newErrors := newErrors[PriceField := PriceRequiredMsg];
      isValid := false;
    } else if price.None? || price.value <= 0.0 {
      newErrors := newErrors[PriceField := PriceInvalidMsg];
      isValid := false;
    }
    ghost var priceMessage := PriceMessage(form.pricePerDay, price);
    assert newErrors == if priceMessage == "" then afterName else afterName[PriceField := priceMessage];
  }

  /** The body sent to the room service; `None` is NaN for a number and null for the description. */
  datatype RoomPayload = RoomPayload(name: string, pricePerDay: Option<real>, status: Option<real>, description: Option<string>)

  /** `Number(value)` of a field value. */
  function NumberOf(v: FieldValue): Option<real> {
    match v
    case Num(n) => Some(n as real)
    case Str(s) => ParseNumber(s)
  }

  /** The normalised payload: trimmed name, numbers, and the trimmed description or null. */
  function Payload(form: RoomFormData): (p: RoomPayload)
    ensures p.name == Trim(form.name)
    ensures p.description.None? <==> Trim(form.description) == ""
    ensures p.description.Some? ==> p.description.value == Trim(form.description)
  {
    var description := Trim(form.description);
    RoomPayload(
      Trim(form.name),
      ParseNumber(form.pricePerDay),
      NumberOf(form.status),
      if description == "" then None else Some(description))
  }

  /** A form that validates yields a payload with a clean name of three or more characters and a positive price. */
  lemma ValidFormPayload(form: RoomFormData)
    requires RoomErrors(form) == map[]
    ensures |Payload(form).name| >= 3 && Trim(Payload(form).name) == Payload(form).name
    ensures Payload(form).pricePerDay.Some? && Payload(form).pricePerDay.value > 0.0
    ensures Payload(form).description.Some? ==> Trim(Payload(form).description.value) == Payload(form).description.value
  {
    assert NameField !in RoomErrors(form) && PriceField !in RoomErrors(form);
    TrimIdempotent(form.name);
    TrimIdempotent(form.description);
  }
}
