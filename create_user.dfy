/** The registration use case: validate the request with the registration composite. */
module CreateUser {
  import opened Wrappers
  import opened Validators
  import opened UserValidators

  /** The request of the use case: all three fields are always present as strings. */
  datatype CreateUserRequest = CreateUserRequest(name: string, email: string, password: string)

  /** The request seen as the payload the validators read. */
  function AsUserData(request: CreateUserRequest): (data: UserData)
    ensures data.name == Some(request.name) && data.email == Some(request.email)
    ensures data.password == Some(request.password)
  {
    UserData(Some(request.name), Some(request.email), Some(request.password))
  }

  /**
   * `CreateUserUseCase`: the registration validator is built once, in the
   * constructor, and reused by every call.
   */
  class CreateUserUseCase {
    const validator: CompositeValidator

    /** The validator still holds the registration rules. */
    ghost predicate Valid()
      reads validator
    {
      validator.validators == [PersonalDataRules, Password]
    }

    constructor ()
      ensures Valid()
      ensures fresh(validator)
    {
      var registration := NewUserRegistrationValidator();
      validator := registration;
    }

    /**
     * `execute(request)`: a failed validation is handed back as it is; a passed
     * one gives a valid result with no errors. Persistence and logging are not
     * part of the result.
     */
    method Execute(request: CreateUserRequest) returns (result: ValidationResult)
      requires Valid()
      ensures var data := AsUserData(request);
              !Evaluate(RegistrationRules, data).isValid ==> result == Evaluate(RegistrationRules, data)
      ensures Evaluate(RegistrationRules, AsUserData(request)).isValid ==> result == Passed
      ensures result.isValid
          <==> ValidateName(Some(request.name)).isValid && ValidateEmail(Some(request.email)).isValid
               && ValidatePassword(Some(request.password)).isValid
      ensures result.errors
           == ValidateName(Some(request.name)).errors + ValidateEmail(Some(request.email)).errors
              + ValidatePassword(Some(request.password)).errors
    {
      var data := AsUserData(request);
      var validationResult := validator.Validate(data);
      assert validator.AsValidator() == RegistrationRules;
      RegistrationMeaning(data);
      if !validationResult.isValid {
        return validationResult;
      }
      ValidIffNoErrors(RegistrationRules, data);
      return Passed;
    }
  }
}
