/**
 * `PropertyController.createProperty`: the guards on the request body, the
 * DTO handed to the property service, and the response built from what the
 * service returns or throws. The service is a parameter: any total function
 * from the DTO to a created property or the message of the error it throws.
 */
module PropertyController {
  import opened Wrappers
  import Text
  import Entities
  import opened Web

  const NameRequired := "O nome é obrigatório"
  const MaxGuestsMustBePositive := "O número máximo de hóspedes deve ser maior que zero"
  const PriceMustBePositive := "O preço base por noite deve ser maior que zero."
  const PropertyCreated := "Propriedade criada com sucesso"
  const UnexpectedError := "Ocorreu um erro inesperado"

  /** The fields of the JSON request body that the controller reads; a field may be absent. */
  datatype PropertyBody = PropertyBody(
    name: Option<string>,
    description: Option<string>,
    maxGuests: Option<int>,
    basePricePerNight: Option<real>)

  datatype CreatePropertyDto = CreatePropertyDto(
    name: string,
    description: Option<string>,
    maxGuests: int,
    basePricePerNight: real)

  type PropertyService = CreatePropertyDto -> Result<Entities.Property, string>

  /** JavaScript's `!n` on a number that may be absent: `undefined` and `0` are falsy. */
  predicate FalsyCount(n: Option<int>) {
    n.None? || n.value == 0
  }

  predicate FalsyAmount(n: Option<real>) {
    n.None? || n.value == 0.0
  }

  /** The guards in the order they run, then the DTO that copies the body's four fields. */
  function ValidateBody(b: PropertyBody): (r: Result<CreatePropertyDto, string>)
    ensures r.Success? <==>
      && b.name.Some? && !Text.AllWhitespace(b.name.value)
      && b.maxGuests.Some? && b.maxGuests.value > 0
      && b.basePricePerNight.Some? && b.basePricePerNight.value > 0.0
    ensures r.Success? ==>
      r.value == CreatePropertyDto(b.name.value, b.description, b.maxGuests.value, b.basePricePerNight.value)
    ensures r.Failure? ==> r.error in {NameRequired, MaxGuestsMustBePositive, PriceMustBePositive}
  {
    Text.MissingOrBlankIff(b.name);
    if Text.MissingOrBlank(b.name) then Failure(NameRequired)
    else if FalsyCount(b.maxGuests) || b.maxGuests.value <= 0 then Failure(MaxGuestsMustBePositive)
    else if FalsyAmount(b.basePricePerNight) then Failure(PriceMustBePositive)
    else if b.basePricePerNight.value <= 0.0 then Failure(PriceMustBePositive)
    else Success(CreatePropertyDto(b.name.value, b.description, b.maxGuests.value, b.basePricePerNight.value))
  }

  /** The created property as the success response echoes it, read through its getters. */
  function View(p: Entities.Property): (v: PropertyView)
    ensures v.id == p.id && v.name == p.name && v.description == p.description
    ensures v.maxGuests == p.maxGuests && v.basePricePerNight == p.basePricePerNight
  {
    PropertyView(p.id, p.name, p.description, p.maxGuests, p.basePricePerNight)
  }

  /** `createProperty(req, res)`: 400 with the first failing guard's message, 201 with the created property, or 400 with the service's error. */
  function CreateProperty(b: PropertyBody, service: PropertyService): (r: Response)
    ensures r.status == Created || r.status == BadRequest
    ensures r.status == Created <==> ValidateBody(b).Success? && service(ValidateBody(b).value).Success?
    ensures r.status == Created ==>
      && r.message == PropertyCreated
      && r.payload == PropertyPayload(View(service(ValidateBody(b).value).value))
    ensures r.status == BadRequest ==> r.payload == NoPayload && r.message != ""
    ensures ValidateBody(b).Failure? ==> r.message == ValidateBody(b).error
    ensures ValidateBody(b).Success? && service(ValidateBody(b).value).Failure? ==>
      var thrown := service(ValidateBody(b).value).error;
      r.message == (if thrown == "" then UnexpectedError else thrown)
  {
    match ValidateBody(b)
    case Failure(message) => Response(BadRequest, message, NoPayload)
    case Success(dto) =>
      match service(dto)
      case Failure(thrown) => Response(BadRequest, CaughtMessage(thrown, UnexpectedError), NoPayload)
      case Success(property) => Response(Created, PropertyCreated, PropertyPayload(View(property)))
  }

  /** The first failing check wins: name, then capacity, then price. */
  lemma ChecksInOrder(b: PropertyBody)
    ensures b.name.None? || Text.AllWhitespace(b.name.value) ==>
      ValidateBody(b) == Failure(NameRequired)
    ensures b.name.Some? && !Text.AllWhitespace(b.name.value) && (b.maxGuests.None? || b.maxGuests.value <= 0) ==>
      ValidateBody(b) == Failure(MaxGuestsMustBePositive)
    ensures b.name.Some? && !Text.AllWhitespace(b.name.value) && b.maxGuests.Some? && b.maxGuests.value > 0
            && (b.basePricePerNight.None? || b.basePricePerNight.value <= 0.0) ==>
      ValidateBody(b) == Failure(PriceMustBePositive)
  {
    Text.MissingOrBlankIff(b.name);
  }

  /** A rejected body never reaches the service: the answer is the same whatever the service would do. */
  lemma RejectedBodyIgnoresService(b: PropertyBody, s1: PropertyService, s2: PropertyService)
    requires ValidateBody(b).Failure?
    ensures CreateProperty(b, s1) == CreateProperty(b, s2)
    ensures CreateProperty(b, s1).status == BadRequest
  {
  }

  /** The name reaches the service exactly as sent (not trimmed), and an absent description stays absent. */
  lemma NameNotTrimmed(description: Option<string>, maxGuests: int, price: real)
    requires maxGuests > 0 && price > 0.0
    ensures var b := PropertyBody(Some("  Casa  "), description, Some(maxGuests), Some(price));
      ValidateBody(b) == Success(CreatePropertyDto("  Casa  ", description, maxGuests, price))
  {
    assert !Text.IsWhitespace("  Casa  "[2]);
  }

  /** A name that is empty or only spaces is refused, as the end-to-end suite sends it. */
  lemma BlankNameExamples()
    ensures ValidateBody(PropertyBody(Some(""), Some("Uma linda Casa"), Some(5), Some(200.0))) == Failure(NameRequired)
    ensures ValidateBody(PropertyBody(Some("   "), Some("Uma linda Casa"), Some(5), Some(200.0))) == Failure(NameRequired)
  {
    assert Text.AllWhitespace("   ");
    ChecksInOrder(PropertyBody(Some("   "), Some("Uma linda Casa"), Some(5), Some(200.0)));
  }

  /** Zero, negative and absent capacities and prices of the end-to-end suite, answered with the controller's own messages. */
  lemma ThresholdExamples()
    ensures ValidateBody(PropertyBody(Some("Casa"), None, Some(0), Some(200.0))) == Failure(MaxGuestsMustBePositive)
    ensures ValidateBody(PropertyBody(Some("Casa"), None, Some(-1), Some(200.0))) == Failure(MaxGuestsMustBePositive)
    ensures ValidateBody(PropertyBody(Some("Casa"), None, Some(5), Some(0.0))) == Failure(PriceMustBePositive)
    ensures ValidateBody(PropertyBody(Some("Casa"), None, Some(5), Some(-100.0))) == Failure(PriceMustBePositive)
    ensures ValidateBody(PropertyBody(Some("Casa"), None, Some(5), None)) == Failure(PriceMustBePositive)
  {
    assert !Text.IsWhitespace("Casa"[0]);
    ChecksInOrder(PropertyBody(Some("Casa"), None, Some(0), Some(200.0)));
    ChecksInOrder(PropertyBody(Some("Casa"), None, Some(-1), Some(200.0)));
    ChecksInOrder(PropertyBody(Some("Casa"), None, Some(5), Some(0.0)));
    ChecksInOrder(PropertyBody(Some("Casa"), None, Some(5), Some(-100.0)));
    ChecksInOrder(PropertyBody(Some("Casa"), None, Some(5), None));
  }
}
