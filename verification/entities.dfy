/**
 * The domain entities the mappers and controllers exchange: `Property`,
 * `User`, `DateRange` and `Booking`, each built through a validating
 * constructor that either yields the entity or the error it throws.
 * Dates are day numbers (days since 1970-01-01); amounts are exact reals.
 */
module Entities {
  import opened Wrappers
  import Text

  /** The kinds of validation failure a constructor or a mapper raises. */
  datatype Field = Name | PropertyRelation | GuestRelation
  datatype DomainError =
    | MissingRequiredField(field: Field)
    | InvalidCapacity
    | InvalidPrice
    | InvalidDateRange
    | InvalidGuestCount

  /** The text of the error raised for a missing name. */
  const NameRequiredMessage := "O nome é obrigatório"

  /** The message of an error, where the source shows it; the other messages are not part of this model. */
  function Message(e: DomainError): (m: Option<string>)
    ensures m.Some? <==> e == MissingRequiredField(Name)
    ensures m.Some? ==> m.value == NameRequiredMessage
  {
    if e == MissingRequiredField(Name) then Some(NameRequiredMessage) else None
  }

  datatype Property = Property(id: string, name: string, description: string, maxGuests: int, basePricePerNight: real)
  datatype User = User(id: string, name: string)
  datatype DateRange = DateRange(startDate: int, endDate: int)
  datatype BookingStatus = Confirmed | Cancelled
  datatype Booking = Booking(
    id: string,
    property: Property,
    guest: User,
    dateRange: DateRange,
    guestCount: int,
    totalPrice: real,
    status: BookingStatus)

  /** The value of a status as the entities and the persisted records spell it. */
  function StatusCode(s: BookingStatus): (code: string)
    ensures code == "CONFIRMED" <==> s == Confirmed
    ensures code == "CANCELLED" <==> s == Cancelled
  {
    match s
    case Confirmed => "CONFIRMED"
    case Cancelled => "CANCELLED"
  }

  /** The invariant a constructed property keeps. */
  predicate ValidProperty(p: Property) {
    !Text.AllWhitespace(p.name) && p.maxGuests > 0 && p.basePricePerNight > 0.0
  }

  predicate ValidUser(u: User) {
    !Text.AllWhitespace(u.name)
  }

  predicate ValidDateRange(r: DateRange) {
    r.startDate < r.endDate
  }

  /** The invariant a constructed booking keeps. */
  predicate ValidBooking(b: Booking) {
    && ValidProperty(b.property)
    && ValidUser(b.guest)
    && ValidDateRange(b.dateRange)
    && 1 <= b.guestCount <= b.property.maxGuests
  }

  /** `new Property(id, name, description, maxGuests, basePricePerNight)`: a blank name, a non-positive capacity or price is refused; an absent description becomes "". */
  function NewProperty(id: string, name: string, description: Option<string>, maxGuests: int, basePricePerNight: real): (r: Result<Property, DomainError>)
    ensures r.Success? <==> !Text.AllWhitespace(name) && maxGuests > 0 && basePricePerNight > 0.0
    ensures Text.AllWhitespace(name) ==> r == Failure(MissingRequiredField(Name))
    ensures !Text.AllWhitespace(name) && maxGuests <= 0 ==> r == Failure(InvalidCapacity)
    ensures !Text.AllWhitespace(name) && maxGuests > 0 && basePricePerNight <= 0.0 ==> r == Failure(InvalidPrice)
    ensures r.Success? ==> ValidProperty(r.value)
    ensures r.Success? ==>
      && r.value.id == id && r.value.name == name && r.value.maxGuests == maxGuests
      && r.value.basePricePerNight == basePricePerNight
      && r.value.description == (if description.Some? then description.value else "")
  {
    Text.TrimEmptyIffAllWhitespace(name);
    if Text.Trim(name) == "" then Failure(MissingRequiredField(Name))
    else if maxGuests <= 0 then Failure(InvalidCapacity)
    else if basePricePerNight <= 0.0 then Failure(InvalidPrice)
    else Success(Property(id, name, description.GetOr(""), maxGuests, basePricePerNight))
  }

  /** `new User(id, name)`: a blank name is refused. */
  function NewUser(id: string, name: string): (r: Result<User, DomainError>)
    ensures r.Success? <==> !Text.AllWhitespace(name)
    ensures r.Failure? ==> r.error == MissingRequiredField(Name)
    ensures r.Success? ==> r.value.id == id && r.value.name == name && ValidUser(r.value)
  {
    Text.TrimEmptyIffAllWhitespace(name);
    if Text.Trim(name) == "" then Failure(MissingRequiredField(Name)) else Success(User(id, name))
  }

  /** `new DateRange(start, end)`: the start must come strictly before the end. */
  function NewDateRange(startDate: int, endDate: int): (r: Result<DateRange, DomainError>)
    ensures r.Success? <==> startDate < endDate
    ensures r.Failure? ==> r.error == InvalidDateRange
    ensures r.Success? ==> r.value.startDate == startDate && r.value.endDate == endDate
  {
    if startDate >= endDate then Failure(InvalidDateRange) else Success(DateRange(startDate, endDate))
  }

  /** Whole nights of a stay. */
  function Nights(r: DateRange): (n: int)
    ensures ValidDateRange(r) ==> n >= 1
  {
    r.endDate - r.startDate
  }

  /**
   * `new Booking(id, property, guest, dateRange, guestCount)`: the guest count must lie within
   * the property's capacity; the total is nights times the nightly price; the status starts CONFIRMED.
   */
  function NewBooking(id: string, property: Property, guest: User, dateRange: DateRange, guestCount: int): (r: Result<Booking, DomainError>)
    ensures r.Success? <==> 1 <= guestCount <= property.maxGuests
    ensures r.Failure? ==> r.error == InvalidGuestCount
    ensures r.Success? ==> r.value.status == Confirmed
    ensures r.Success? ==>
      && r.value.id == id && r.value.property == property && r.value.guest == guest
      && r.value.dateRange == dateRange && r.value.guestCount == guestCount
    ensures r.Success? && ValidProperty(property) && ValidUser(guest) && ValidDateRange(dateRange) ==>
      ValidBooking(r.value) && r.value.totalPrice > 0.0
  {
    if guestCount < 1 || guestCount > property.maxGuests then Failure(InvalidGuestCount)
    else Success(Booking(id, property, guest, dateRange, guestCount,
                         Nights(dateRange) as real * property.basePricePerNight, Confirmed))
  }
}
