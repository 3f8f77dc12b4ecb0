/**
 * `BookingMapper`: between the domain `Booking` and the persisted booking
 * record, whose property and guest relations may be absent.
 */
module BookingMapper {
  import opened Wrappers
  import opened Entities
  import PropertyMapper
  import Text

  /** The persisted user: the `id` and `name` columns of the users table. */
  datatype UserRecord = UserRecord(id: string, name: string)

  datatype BookingRecord = BookingRecord(
    id: string,
    property: Option<PropertyMapper.PropertyRecord>,
    guest: Option<UserRecord>,
    startDate: int,
    endDate: int,
    guestCount: int,
    totalPrice: real,
    status: BookingStatus)

  /** `BookingMapper.toDomain`: an absent property or guest fails; otherwise every column is carried over. */
  function ToDomain(e: BookingRecord): (r: Result<Booking, DomainError>)
    ensures e.property.None? ==> r == Failure(MissingRequiredField(PropertyRelation))
    ensures e.property.Some? && e.guest.None? ==> r == Failure(MissingRequiredField(GuestRelation))
    ensures e.property.Some? && e.guest.Some? && PropertyMapper.ToDomain(e.property.value).Failure? ==>
      r == Failure(PropertyMapper.ToDomain(e.property.value).error)
    ensures e.property.Some? && e.guest.Some? && PropertyMapper.ToDomain(e.property.value).Success?
            && Text.AllWhitespace(e.guest.value.name) ==>
      r == Failure(MissingRequiredField(Name))
    ensures e.property.Some? && e.guest.Some? && PropertyMapper.ToDomain(e.property.value).Success?
            && !Text.AllWhitespace(e.guest.value.name) && e.startDate >= e.endDate ==>
      r == Failure(InvalidDateRange)
    ensures e.property.Some? && e.guest.Some? && PropertyMapper.ToDomain(e.property.value).Success?
            && !Text.AllWhitespace(e.guest.value.name) && e.startDate < e.endDate
            && !(1 <= e.guestCount <= e.property.value.maxGuests) ==>
      r == Failure(InvalidGuestCount)
    ensures r.Success? <==>
      && e.property.Some? && e.guest.Some?
      && PropertyMapper.ToDomain(e.property.value).Success?
      && !Text.AllWhitespace(e.guest.value.name)
      && e.startDate < e.endDate
      && 1 <= e.guestCount <= e.property.value.maxGuests
    ensures r.Success? ==>
      && e.property.Some? && e.guest.Some?
      && PropertyMapper.ToDomain(e.property.value) == Success(r.value.property)
      && r.value.guest == User(e.guest.value.id, e.guest.value.name)
      && r.value.id == e.id
      && r.value.property.id == e.property.value.id
      && r.value.guest.id == e.guest.value.id
      && r.value.dateRange.startDate == e.startDate
      && r.value.dateRange.endDate == e.endDate
      && r.value.guestCount == e.guestCount
      && r.value.totalPrice == e.totalPrice
      && r.value.status == e.status
      && ValidBooking(r.value)
  {
    if e.property.None? then Failure(MissingRequiredField(PropertyRelation))
    else if e.guest.None? then Failure(MissingRequiredField(GuestRelation))
    else
      var property :- PropertyMapper.ToDomain(e.property.value);
      var guest :- NewUser(e.guest.value.id, e.guest.value.name);
      var dateRange :- NewDateRange(e.startDate, e.endDate);
      var booking :- NewBooking(e.id, property, guest, dateRange, e.guestCount);
      Success(booking.(totalPrice := e.totalPrice, status := e.status))
  }

  /** `BookingMapper.toPersistence`: both relations are filled, with a complete property record. */
  function ToPersistence(b: Booking): (e: BookingRecord)
    ensures e.property.Some? && PropertyMapper.Complete(e.property.value)
    ensures e.guest.Some?
  {
    BookingRecord(
      b.id,
      Some(PropertyMapper.ToPersistence(b.property)),
      Some(UserRecord(b.guest.id, b.guest.name)),
      b.dateRange.startDate,
      b.dateRange.endDate,
      b.guestCount,
      b.totalPrice,
      b.status)
  }

  /** Storing a valid booking and loading it back gives the same booking, status and total included. */
  lemma DomainRoundTrip(b: Booking)
    requires ValidBooking(b)
    ensures ToDomain(ToPersistence(b)) == Success(b)
  {
    PropertyMapper.DomainRoundTrip(b.property);
    assert NewUser(b.guest.id, b.guest.name) == Success(b.guest);
    assert NewDateRange(b.dateRange.startDate, b.dateRange.endDate) == Success(b.dateRange);
    var built := NewBooking(b.id, b.property, b.guest, b.dateRange, b.guestCount);
    assert built.Success?;
    assert built.value.(totalPrice := b.totalPrice, status := b.status) == b;
  }

  /** Loading a record whose property record is complete and storing it back gives the same record. */
  lemma PersistenceRoundTrip(e: BookingRecord, b: Booking)
    requires e.property.Some? && PropertyMapper.Complete(e.property.value)
    requires ToDomain(e) == Success(b)
    ensures ToPersistence(b) == e
  {
    PropertyMapper.PersistenceRoundTrip(e.property.value, b.property);
  }

  /** 2025-02-10 and 2025-02-15 as day numbers. */
  const CheckIn: int := 20129
  const CheckOut: int := 20134

  const StoredProperty := PropertyMapper.PropertyRecord("1", Some("Casa na Grécia"), Some("Vista para o Mediterrâneo"), 6, 200.0)

  /** The booking that the mapper test's stored record describes. */
  const ExpectedBooking := Booking(
    "1",
    Property("1", "Casa na Grécia", "Vista para o Mediterrâneo", 6, 200.0),
    User("1", "Marcos da Conceição"),
    DateRange(CheckIn, CheckOut), 4, 1000.0, Confirmed)

  /** The stored booking of the mapper test loads with every column carried over. */
  lemma LoadExample()
    ensures
      var r := ToDomain(BookingRecord("1", Some(StoredProperty), Some(UserRecord("1", "Marcos da Conceição")),
                                      CheckIn, CheckOut, 4, 1000.0, Confirmed));
      && r.Success?
      && r.value.id == "1" && r.value.property.id == "1" && r.value.guest.id == "1"
      && r.value.dateRange == DateRange(CheckIn, CheckOut)
      && r.value.guestCount == 4 && r.value.totalPrice == 1000.0
      && StatusCode(r.value.status) == "CONFIRMED"
  {
    var b := ExpectedBooking;
    assert !Text.IsWhitespace(b.property.name[0]);
    assert !Text.IsWhitespace(b.guest.name[0]);
    assert ValidBooking(b);
    DomainRoundTrip(b);
    assert ToPersistence(b) == BookingRecord("1", Some(StoredProperty), Some(UserRecord("1", "Marcos da Conceição")),
                                             CheckIn, CheckOut, 4, 1000.0, Confirmed);
  }

  /** A stored booking without its property does not load. */
  lemma MissingPropertyExample()
    ensures ToDomain(BookingRecord("1", None, Some(UserRecord("", "")), CheckIn, CheckOut, 4, 1000.0, Confirmed)).Failure?
  {
  }

  /** A booking for 4 guests of a 6-guest property is built CONFIRMED and stored with that status. */
  lemma StoreExample()
    ensures
      var property := NewProperty("1", "Casa na Grécia", Some("Vista para o Mediterrâneo"), 6, 200.0);
      var user := NewUser("1", "Marcos da Conceição");
      var dates := NewDateRange(CheckIn, CheckOut);
      && property.Success? && user.Success? && dates.Success?
      && var booking := NewBooking("1", property.value, user.value, dates.value, 4);
      && booking.Success?
      && var e := ToPersistence(booking.value);
      && e.id == "1" && e.property.value.id == "1" && e.guest.value.id == "1"
      && e.startDate == CheckIn && e.endDate == CheckOut && e.guestCount == 4
      && StatusCode(e.status) == "CONFIRMED"
      && e.totalPrice == 1000.0
  {
    assert !Text.IsWhitespace("Casa na Grécia"[0]);
    assert !Text.IsWhitespace("Marcos da Conceição"[0]);
  }
}
