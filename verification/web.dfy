/**
 * The HTTP answer of a controller, reduced to what a client sees: the status
 * code and the JSON body (a message plus, on success, the created entity).
 */
module Web {

  datatype PropertyView = PropertyView(id: string, name: string, description: string, maxGuests: int, basePricePerNight: real)
  datatype UserView = UserView(id: string, name: string)

  datatype Payload = NoPayload | PropertyPayload(property: PropertyView) | UserPayload(user: UserView)

  datatype Response = Response(status: int, message: string, payload: Payload)

  const Created: int := 201
  const BadRequest: int := 400

  /** `error.message || fallback`: the caught error's message, unless it is empty. */
  function CaughtMessage(errorMessage: string, fallback: string): (m: string)
    ensures errorMessage != "" ==> m == errorMessage
    ensures errorMessage == "" ==> m == fallback
    ensures fallback != "" ==> m != ""
  {
    if errorMessage != "" then errorMessage else fallback
  }
}
