# Booking domain: refund policy, request validation and persistence mappers

A Dafny model of the rule-bearing core of a short-term rental booking service
(properties, users, bookings):

- **Cancellation refund policy** (`Cancelation`). `GetRefundRule` maps the
  number of days left before check-in to one of three rules. More than 7 days
  gives `FullRefund`, 1 to 7 gives `PartialRefund`, and fewer than 1 gives
  `NoRefund`. Each rule's `CalculateRefund(total)` returns the amount
  **withheld**: 0, half the total, or the whole total. It is not the amount
  paid back, whatever the name suggests. `AmountReturned` is the complement.
- **Request validation in the web controllers** (`PropertyController`,
  `UserController`). The guard cascades of `createProperty` and `createUser`
  are modelled as pure validators from the request body to either the DTO
  for the service or the first failing message. The whole handler is
  modelled as a function to a `Response`, which holds a status code, a
  message and the echoed entity. The service is a parameter: any total
  function from the DTO to a created entity or to the message of the error
  it throws. `Web` holds the shared response shape and the
  `error.message || fallback` rule of the catch blocks.
- **JavaScript `trim`** (`Text`). Both controllers decide that a name is
  blank with `!name || name.trim() === ""`. `Text` defines `trim` over the
  ECMAScript WhiteSpace and LineTerminator code points. It proves that a
  name is rejected exactly when it is absent or made only of whitespace.
- **Domain entities and their persistence mappers** (`Entities`,
  `PropertyMapper`, `BookingMapper`). `Property`, `User`, `DateRange` and
  `Booking` are built through validating constructors. A new booking starts
  `CONFIRMED`. `toDomain` fails on a record without a name, without a
  property or without a guest. It also fails when the domain constructors
  refuse the values: a blank name, a capacity or price not above zero, a
  start not before the end, or a guest count outside [1, maxGuests]. A record
  that loads has every column copied, a NULL description becoming "", and `toPersistence` fills every column.
  Both round trips are proved.

Amounts (prices, totals, refunds) are exact `real`s. Dates are day numbers
counted from 1970-01-01, so 2025-02-10 is 20129 and 2025-02-15 is 20134.

Where the end-to-end suite `src/infrastructure/web/property_controller_e2e.test.ts`
expects other messages than `property_controller.ts` produces, the model
follows the controller. The e2e suite expects these texts:

- "Property created successfully" (its line 66)
- "O nome da propriedade é obrigatório." (line 98)
- "O nome é obrigatório." with a full stop, for the name "   " (line 112)
- "A capacidade máxima deve ser maior que zero." (line 126)
- "O preço base por noite é obrigatório." (line 181)

The model gives the controller's own texts instead, at lines 36, 11, 11, 15 and 19.

The sources of the domain constructors and of the mappers are not part of
this model. Their behaviour is taken from what the mapper and refund tests
assert. Where the tests are silent, it follows assumed domain rules, each
marked as an assumption under "## Left out".

## Model

| member | source | states |
|---|---|---|
| `Cancelation.GetRefundRule` | src/domain/cancelation/refund_rule_factory.test.ts:7-27 | the rule is `FullRefund` iff days > 7 (`FullRefundAfterDays`), `PartialRefund` iff 1 (`PartialRefundFromDays`) <= days <= 7, `NoRefund` iff days < 1, for every integer |
| `Cancelation.RefundRule.WithheldShare` | src/domain/cancelation/refund_rule_factory.test.ts:12-28 | each rule withholds a share between 0 and 1 of the total |
| `Cancelation.RefundRule.CalculateRefund` | src/domain/cancelation/refund_rule_factory.test.ts:12-28 | the amount withheld is the rule's share of the total, so for a non-negative total it lies between 0 and the total |
| `Cancelation.RefundRule.AmountReturned` | src/domain/cancelation/refund_rule_factory.test.ts:12-28 | what the guest gets back plus what is withheld is the total, and both are bounded by a non-negative total |
| `Cancelation.WithheldOnCancel` | src/domain/cancelation/refund_rule_factory.test.ts:8-28 | the selected rule's withheld amount is within [0, total]: 0 more than 7 days ahead, half the total from 1 to 7 days, the whole total under 1 day |
| `Cancelation.FactoryExamples` | src/domain/cancelation/refund_rule_factory.test.ts:7-29 | 8 gives Full withholding 0 of 1000, 5 gives Partial withholding 500, 0 gives No withholding 1000; 7 and 1 give Partial, -5 gives No |
| `Cancelation.WithheldShareMonotone` | src/domain/cancelation/refund_rule_factory.test.ts:7-28 | a later cancellation never withholds a smaller share |
| `Cancelation.WithheldMonotone` | src/domain/cancelation/refund_rule_factory.test.ts:7-28 | for a non-negative total, the amount withheld never decreases as the days until check-in decrease |
| `Cancelation.PartialRefundOfEvenTotal` | src/domain/cancelation/refund_rule_factory.test.ts:20 | on an even whole total, half is withheld and half returned, both whole amounts |
| `Text.TrimStart` | src/infrastructure/web/property_controller.ts:10 | the result is a suffix of the input, everything dropped is whitespace, and it does not start with whitespace |
| `Text.TrimEnd` | src/infrastructure/web/property_controller.ts:10 | the result is a prefix of the input, everything dropped is whitespace, and it does not end with whitespace |
| `Text.Trim` | src/infrastructure/web/property_controller.ts:10 | `trim` is the input with only the whitespace at its two ends removed: a contiguous part that neither starts nor ends with whitespace, everything cut off being whitespace |
| `Text.TrimBothEnds` | src/infrastructure/web/property_controller.ts:10 | if `t` is `s` without its leading whitespace and `r` is `t` without its trailing whitespace, then `r` is a contiguous part of `s`, everything cut off is whitespace, and `r` neither starts nor ends with whitespace |
| `Text.TrimEmptyIffAllWhitespace` | src/infrastructure/web/property_controller.ts:10 | `s.trim() === ""` iff every character of `s` is whitespace |
| `Text.MissingOrBlankIff` | src/infrastructure/web/user_controller.ts:9 | the name guard (absent, or trimming to "") holds iff the name is absent or all whitespace |
| `Web.CaughtMessage` | src/infrastructure/web/property_controller.ts:45-46 | the caught error's message when non-empty, otherwise the fallback, so never empty when the fallback is not |
| `PropertyController.ValidateBody` | src/infrastructure/web/property_controller.ts:10-31 | a body is accepted iff its name is present and not all whitespace, `maxGuests` > 0 and `basePricePerNight` > 0; the DTO then copies all four fields untouched; every rejection carries one of the three guard messages |
| `PropertyController.ChecksInOrder` | src/infrastructure/web/property_controller.ts:10-24 | the first failing check wins: a blank name gives "O nome é obrigatório" whatever the numbers; then a missing or non-positive capacity its message; then a missing or non-positive price "O preço base por noite deve ser maior que zero." |
| `PropertyController.View` | src/infrastructure/web/property_controller.ts:37-43 | the echoed property has the created property's id, name, description, capacity and price |
| `PropertyController.CreateProperty` | src/infrastructure/web/property_controller.ts:8-48 | status is 201 iff validation passes and the service succeeds, with "Propriedade criada com sucesso" and the created property echoed; otherwise 400 with no entity and a non-empty message: the guard's, or the thrown message, or "Ocorreu um erro inesperado" for an empty one |
| `PropertyController.RejectedBodyIgnoresService` | src/infrastructure/web/property_controller.ts:10-33 | a rejected body gets 400 and the same answer whatever the service would do |
| `PropertyController.NameNotTrimmed` | src/infrastructure/web/property_controller.ts:26-31 | a name with surrounding spaces reaches the service as sent, and an absent description stays absent |
| `PropertyController.BlankNameExamples` | src/infrastructure/web/property_controller.ts:10-12 | the names "" and "   " are refused with "O nome é obrigatório" |
| `PropertyController.ThresholdExamples` | src/infrastructure/web/property_controller.ts:14-24 | capacities 0 and -1 get the capacity message; prices 0, -100 and an absent price get the price message |
| `UserController.ValidateBody` | src/infrastructure/web/user_controller.ts:9-13 | a body is accepted iff its name is present and not all whitespace; the service request then holds exactly that name; rejection is "O campo nome é obrigatório." |
| `UserController.CreateUser` | src/infrastructure/web/user_controller.ts:7-27 | 201 iff the name is non-blank and the service succeeds, with "Usuário criado com sucesso" and exactly the user's id and name; a blank name gives 400 "O campo nome é obrigatório."; a service error gives 400 with its message or "An unexpected error occurred" |
| `UserController.RejectedBodyIgnoresService` | src/infrastructure/web/user_controller.ts:9-11 | for a blank name the answer does not depend on the service |
| `Entities.Message` | src/infrastructure/persistence/mappers/property_mapper.test.ts:32-34 | the missing-name error, and only it, carries the text "O nome é obrigatório" |
| `Entities.StatusCode` | src/infrastructure/persistence/mappers/booking_mapper.test.ts:86 | a status is spelled "CONFIRMED" iff it is confirmed and "CANCELLED" iff cancelled |
| `Entities.NewProperty` | src/infrastructure/persistence/mappers/property_mapper.test.ts:38-53 | construction succeeds iff the name is not all whitespace, capacity > 0 and price > 0; a blank name fails as a missing name, then a capacity <= 0 fails as an invalid capacity, then a price <= 0 as an invalid price; the accessors return exactly the arguments, an absent description reading "" |
| `Entities.NewUser` | src/infrastructure/persistence/mappers/booking_mapper.test.ts:70 | construction succeeds iff the name is not all whitespace, and then returns exactly its id and name |
| `Entities.NewDateRange` | src/infrastructure/persistence/mappers/booking_mapper.test.ts:71-74 | construction succeeds iff start < end, and then reports exactly those dates |
| `Entities.Nights` | src/infrastructure/persistence/mappers/booking_mapper.test.ts:27-30 | a well-ordered range has at least one night |
| `Entities.NewBooking` | src/infrastructure/persistence/mappers/booking_mapper.test.ts:63-75 | construction succeeds iff 1 <= guestCount <= maxGuests, copies its arguments, starts CONFIRMED, and from valid parts yields a valid booking with a positive total |
| `PropertyMapper.ToDomain` | src/infrastructure/persistence/mappers/property_mapper.test.ts:6-35 | a record without a name fails with "O nome é obrigatório"; a present but blank name fails as a missing name, then a capacity <= 0 as an invalid capacity, then a price <= 0 as an invalid price; it loads iff the name is present and non-blank and the numbers are positive, and then id, name, description, capacity and price are copied |
| `PropertyMapper.ToPersistence` | src/infrastructure/persistence/mappers/property_mapper.test.ts:37-54 | the record produced has every nullable column filled |
| `PropertyMapper.DomainRoundTrip` | src/infrastructure/persistence/mappers/property_mapper.test.ts:6-54 | storing a valid property and loading it back gives the same property |
| `PropertyMapper.PersistenceRoundTrip` | src/infrastructure/persistence/mappers/property_mapper.test.ts:6-54 | loading a complete record and storing the result gives the same record |
| `PropertyMapper.MapperExamples` | src/infrastructure/persistence/mappers/property_mapper.test.ts:6-35 | the test's stored property loads field for field, and without its name fails as a missing name |
| `BookingMapper.ToDomain` | src/infrastructure/persistence/mappers/booking_mapper.test.ts:11-60 | a record without a property fails as a missing property, one with a property but without a guest fails as a missing guest; after those, in this order, a property record that does not load passes on its error, a blank guest name fails as a missing name, start >= end as an invalid date range, and a guest count outside [1, maxGuests] as an invalid guest count; it loads iff both relations are present, the property record loads, the guest name is not blank, start < end and 1 <= guestCount <= maxGuests; a loaded booking keeps id, property id, guest id, dates, guest count, total and status, and is valid |
| `BookingMapper.ToPersistence` | src/infrastructure/persistence/mappers/booking_mapper.test.ts:62-87 | both relations are filled and the property record is complete |
| `BookingMapper.DomainRoundTrip` | src/infrastructure/persistence/mappers/booking_mapper.test.ts:33-86 | storing a valid booking and loading it back gives the same booking, total and status included |
| `BookingMapper.PersistenceRoundTrip` | src/infrastructure/persistence/mappers/booking_mapper.test.ts:11-86 | loading a record with a complete property record and storing the result gives the same record |
| `BookingMapper.LoadExample` | src/infrastructure/persistence/mappers/booking_mapper.test.ts:11-44 | the test's stored booking loads with ids "1", its dates, 4 guests, total 1000 and status "CONFIRMED" |
| `BookingMapper.MissingPropertyExample` | src/infrastructure/persistence/mappers/booking_mapper.test.ts:46-60 | the stored booking without a property fails to load |
| `BookingMapper.StoreExample` | src/infrastructure/persistence/mappers/booking_mapper.test.ts:62-87 | a booking of 4 guests on a 6-guest property over 2025-02-10..15 is built and stored with ids "1", those dates, 4 guests and status "CONFIRMED", and total 1000, from the assumed nights × price rule |

## Left out

- HTTP plumbing is not modelled: Express `Request`/`Response`, `res.status().json()`, the async service calls and the e2e harness over HTTP and SQLite. A controller is a function from the request body and the service to a `Response`.
- The services and the repositories are not part of this model. A service is any total function that returns the created entity or the message of the error it throws.
- Floating-point arithmetic is not modelled. Amounts are exact reals, so `total * 0.5` never rounds. A rounding rule for odd totals in whole currency units is not visible in the code, so `PartialRefundOfEvenTotal` covers even totals only.
- JavaScript truthiness beyond absent, empty and zero is not modelled: NaN, numbers sent as strings, non-string names, and a fractional capacity such as 2.5, which passes the capacity guard and reaches the service but which `maxGuests: Option<int>` cannot represent. For a non-string truthy name, `.trim` would throw and the catch block would answer 400.
- The e2e suite's default of an empty description comes from code that is not part of this model. `Entities.NewProperty` reads an absent description as "", an assumed domain rule.
- `Entities.NewProperty`: three checks are assumed domain rules: the refusal of a whitespace-only (present but blank) name, and the capacity and price checks with their error kinds. The tests show only the failure for a missing name.
- `Entities.NewUser`: the refusal of a whitespace-only name is an assumed domain rule. No test builds a user with a blank name.
- `Entities.NewDateRange`: the refusal of a start not before the end is an assumed domain rule. No test exercises it.
- `Entities.NewBooking`: two parts are assumed domain rules. One is the guest-count capacity check. The other is `totalPrice` = nights × nightly price, which agrees with the fixture's 5 × 200 = 1000.
- `BookingMapper.ToDomain`: the failure on an absent guest and the order of the checks (property, guest, property fields, user, dates, guest count) are assumptions. The test shows only that an absent property fails.
- `BookingMapper.ToDomain` copies the stored total and status over the constructed booking. `BookingMapper.ToPersistence` stores the total, which the test does not assert.
- `Booking.cancel` is not modelled, because its code is not part of this model and no test exercises it. The cancellation that would join a booking to the refund policy is therefore absent.
- Only the missing-name error carries a message text, "O nome é obrigatório". The texts of the other domain errors do not appear in the code, so they are modelled as error kinds only. The test only checks that the thrown message contains "O nome é obrigatório"; the model fixes the message to exactly that text.
- A stored status is the enumeration, not an arbitrary string column, so an unknown status string in storage cannot be represented.
- The users table's `bookings` relation is ORM wiring and is not modelled. A stored user is its `id` and `name`.
