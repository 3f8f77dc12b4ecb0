/**
 * `UserController.createUser`: the name guard, the request handed to the user
 * service, and the response built from what the service returns or throws.
 * The service is a parameter: any total function from the request to a
 * created user or the message of the error it throws.
 */
module UserController {
  import opened Wrappers
  import Text
  import Entities
  import opened Web

  const NameFieldRequired := "O campo nome é obrigatório."
  const UserCreated := "Usuário criado com sucesso"
  const UnexpectedError := "An unexpected error occurred"

  /** The one field of the JSON request body that the controller reads. */
  datatype UserBody = UserBody(name: Option<string>)

  /** The argument of `userService.createUser`. */
  datatype CreateUserRequest = CreateUserRequest(name: string)

  type UserService = CreateUserRequest -> Result<Entities.User, string>

  /** The name guard, then the request carrying the name as sent. */
  function ValidateBody(b: UserBody): (r: Result<CreateUserRequest, string>)
    ensures r.Success? <==> b.name.Some? && !Text.AllWhitespace(b.name.value)
    ensures r.Success? ==> r.value == CreateUserRequest(b.name.value)
    ensures r.Failure? ==> r.error == NameFieldRequired
  {
    Text.MissingOrBlankIff(b.name);
    if Text.MissingOrBlank(b.name) then Failure(NameFieldRequired)
    else Success(CreateUserRequest(b.name.value))
  }

  /** `createUser(req, res)`: 400 for a blank name, 201 with the created user's id and name, or 400 with the service's error. */
  function CreateUser(b: UserBody, service: UserService): (r: Response)
    ensures r.status == Created || r.status == BadRequest
    ensures r.status == Created <==>
      b.name.Some? && !Text.AllWhitespace(b.name.value) && service(CreateUserRequest(b.name.value)).Success?
    ensures r.status == Created ==>
      var u := service(CreateUserRequest(b.name.value)).value;
      r.message == UserCreated && r.payload == UserPayload(UserView(u.id, u.name))
    ensures b.name.None? || Text.AllWhitespace(b.name.value) ==>
      r == Response(BadRequest, NameFieldRequired, NoPayload)
    ensures r.status == BadRequest ==> r.payload == NoPayload && r.message != ""
    ensures ValidateBody(b).Success? && service(CreateUserRequest(b.name.value)).Failure? ==>
      var thrown := service(CreateUserRequest(b.name.value)).error;
      r.message == (if thrown == "" then UnexpectedError else thrown)
  {
    match ValidateBody(b)
    case Failure(message) => Response(BadRequest, message, NoPayload)
    case Success(request) =>
      match service(request)
      case Failure(thrown) => Response(BadRequest, CaughtMessage(thrown, UnexpectedError), NoPayload)
      case Success(user) => Response(Created, UserCreated, UserPayload(UserView(user.id, user.name)))
  }

  /** A blank name never reaches the service: the answer is the same whatever the service would do. */
  lemma RejectedBodyIgnoresService(b: UserBody, s1: UserService, s2: UserService)
    requires b.name.None? || Text.AllWhitespace(b.name.value)
    ensures CreateUser(b, s1) == CreateUser(b, s2)
  {
  }
}
