/**
 * `PropertyMapper`: between the domain `Property` and the persisted property
 * record, whose name and description columns may be null.
 */
module PropertyMapper {
  import opened Wrappers
  import opened Entities
  import Text

  datatype PropertyRecord = PropertyRecord(
    id: string,
    name: Option<string>,
    description: Option<string>,
    maxGuests: int,
    basePricePerNight: real)

  /** A record whose nullable columns are all filled. */
  predicate Complete(e: PropertyRecord) {
    e.name.Some? && e.description.Some?
  }

  /** `PropertyMapper.toDomain`: a record without a name fails with "O nome é obrigatório"; otherwise the domain constructor decides. */
  function ToDomain(e: PropertyRecord): (r: Result<Property, DomainError>)
    ensures e.name.None? ==> r.Failure? && Message(r.error) == Some(NameRequiredMessage)
    ensures r.Success? <==>
      e.name.Some? && !Text.AllWhitespace(e.name.value) && e.maxGuests > 0 && e.basePricePerNight > 0.0
    ensures e.name.Some? && Text.AllWhitespace(e.name.value) ==> r == Failure(MissingRequiredField(Name))
    ensures e.name.Some? && !Text.AllWhitespace(e.name.value) && e.maxGuests <= 0 ==> r == Failure(InvalidCapacity)
    ensures e.name.Some? && !Text.AllWhitespace(e.name.value) && e.maxGuests > 0 && e.basePricePerNight <= 0.0 ==>
      r == Failure(InvalidPrice)
    ensures r.Success? ==>
      && r.value.id == e.id && Some(r.value.name) == e.name
      && r.value.description == e.description.GetOr("")
      && r.value.maxGuests == e.maxGuests && r.value.basePricePerNight == e.basePricePerNight
      && ValidProperty(r.value)
  {
    if e.name.None? then Failure(MissingRequiredField(Name))
    else NewProperty(e.id, e.name.value, e.description, e.maxGuests, e.basePricePerNight)
  }

  /** `PropertyMapper.toPersistence`: every field lands in its column, so the record is complete. */
  function ToPersistence(p: Property): (e: PropertyRecord)
    ensures Complete(e)
  {
    PropertyRecord(p.id, Some(p.name), Some(p.description), p.maxGuests, p.basePricePerNight)
  }

  /** Storing a valid property and loading it back gives the same property. */
  lemma DomainRoundTrip(p: Property)
    requires ValidProperty(p)
    ensures ToDomain(ToPersistence(p)) == Success(p)
  {
  }

  /** Loading a complete record and storing it back gives the same record. */
  lemma PersistenceRoundTrip(e: PropertyRecord, p: Property)
    requires Complete(e)
    requires ToDomain(e) == Success(p)
    ensures ToPersistence(p) == e
  {
  }

  /** The persisted fixture of the mapper test loads field for field, and loses its name only to fail. */
  lemma MapperExamples()
    ensures ToDomain(PropertyRecord("1", Some("Casa na Grécia"), Some("Vista para o Mediterrâneo"), 6, 200.0))
         == Success(Property("1", "Casa na Grécia", "Vista para o Mediterrâneo", 6, 200.0))
    ensures ToDomain(PropertyRecord("1", None, Some("Vista para o Mediterrâneo"), 6, 200.0))
         == Failure(MissingRequiredField(Name))
  {
    assert !Text.IsWhitespace("Casa na Grécia"[0]);
  }
}
