/** The HTTP-facing controller: maps the registration outcome to a status and a body. */
module UserControllers {
  import opened Wrappers
  import opened Validators
  import opened UserValidators
  import opened CreateUser

  /** `req.body` of `createUser`. */
  datatype RequestBody = RequestBody(name: string, email: string, password: string)

  /** The response body; a field the response literal does not set is `None`. */
  datatype ResponseBody = ResponseBody(success: bool, errors: Option<seq<string>>, message: Option<string>)

  datatype Response = Response(status: int, body: ResponseBody)

  /** What the `try` block got from the use case: a result, or an exception. */
  datatype ExecuteOutcome = Completed(result: ValidationResult) | Failed

  const CreatedMessage: string := "Usuario creado exitosamente"
  const InternalErrorMessage: string := "Error interno del servidor"

  /** The use-case request built from the body: the three fields, copied as they are. */
  function ToRequest(body: RequestBody): (request: CreateUserRequest)
    ensures request.name == body.name && request.email == body.email && request.password == body.password
  {
    CreateUserRequest(body.name, body.email, body.password)
  }

  /**
   * The branches of `createUser` after the use case has answered or thrown:
   * 400 with the errors for an invalid result, 201 with the success message for
   * a valid one, 500 with the generic message (and no errors) for an exception.
   */
  function Respond(outcome: ExecuteOutcome): (r: Response)
    ensures r.status == 201 || r.status == 400 || r.status == 500
    ensures r.status == 400 <==> outcome.Completed? && !outcome.result.isValid
    ensures r.status == 201 <==> outcome.Completed? && outcome.result.isValid
    ensures r.status == 500 <==> outcome.Failed?
    ensures r.body.success <==> r.status == 201
    ensures r.status == 400 ==> r.body.errors == Some(outcome.result.errors) && r.body.message.None?
    ensures r.status == 201 ==> r.body.errors.None? && r.body.message == Some(CreatedMessage)
    ensures r.status == 500 ==> r.body.errors.None? && r.body.message == Some(InternalErrorMessage)
  {
    match outcome
    case Failed => Response(500, ResponseBody(false, None, Some(InternalErrorMessage)))
    case Completed(result) =>
      if !result.isValid then Response(400, ResponseBody(false, Some(result.errors), None))
      else Response(201, ResponseBody(true, None, Some(CreatedMessage)))
  }

  /** `UserController`: holds the use case it was constructed with. */
  class UserController {
    const createUserUseCase: CreateUserUseCase

    constructor (createUserUseCase: CreateUserUseCase)
      ensures this.createUserUseCase == createUserUseCase
    {
      this.createUserUseCase := createUserUseCase;
    }

    /**
     * `createUser(req)`: the use case never throws here, so the answer is 201
     * when all three fields pass and 400 with every error, in field order,
     * otherwise.
     */
    method CreateUser(req: RequestBody) returns (response: Response)
      requires createUserUseCase.Valid()
      ensures response.status == 201 || response.status == 400
      ensures response.status == 201
          <==> ValidateName(Some(req.name)).isValid && ValidateEmail(Some(req.email)).isValid
               && ValidatePassword(Some(req.password)).isValid
      ensures response.status == 201 ==> response.body == ResponseBody(true, None, Some(CreatedMessage))
      ensures response.status == 400
          ==> response.body == ResponseBody(false, Some(ValidateName(Some(req.name)).errors
                                                        + ValidateEmail(Some(req.email)).errors
                                                        + ValidatePassword(Some(req.password)).errors), None)
    {
      var result := createUserUseCase.Execute(ToRequest(req));
      response := Respond(Completed(result));
    }
  }

  /** The driver's clean request, through a fresh use case and controller, is accepted. */
  method AcceptedRequest() returns (response: Response)
    ensures response == Response(201, ResponseBody(true, None, Some(CreatedMessage)))
  {
    var useCase := new CreateUserUseCase();
    var controller := new UserController(useCase);
    JuanEmailPasses();
    LongNamePasses("Juan Pérez");
    response := controller.CreateUser(RequestBody("Juan Pérez", "juan@example.com", "password123"));
  }

  /** The driver's bad request is rejected with all three messages, in field order. */
  method RejectedRequest() returns (response: Response)
    ensures response == Response(400, ResponseBody(false, Some([NameTooShort, EmailInvalid, PasswordTooShort]), None))
  {
    var useCase := new CreateUserUseCase();
    var controller := new UserController(useCase);
    ShortNameFails("Jo");
    DashedEmailFails();
    ShortPasswordFails();
    response := controller.CreateUser(RequestBody("Jo", "email-invalido", "123"));
    assert [NameTooShort] + [EmailInvalid] + [PasswordTooShort] == [NameTooShort, EmailInvalid, PasswordTooShort];
  }
}
