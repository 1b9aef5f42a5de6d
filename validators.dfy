/**
 * The validation engine of the composite example: three leaf validators on a
 * user payload, and a composite that runs every child and gathers the errors.
 *
 * A validator object is a tree value here; the composite class keeps its
 * ordered child list as a sequence of such trees and appends to it in place.
 */
module Validators {
  import opened Wrappers
  import opened TextRules

  datatype ValidationResult = ValidationResult(isValid: bool, errors: seq<string>)

  /** The payload; an absent field is `None`. */
  datatype UserData = UserData(name: Option<string>, email: Option<string>, password: Option<string>)

  const EmailRequired: string := "Email es requerido"
  const EmailInvalid: string := "Email inválido"
  const PasswordRequired: string := "Contraseña es requerida"
  const PasswordTooShort: string := "Contraseña debe tener al menos 8 caracteres"
  const NameRequired: string := "Nombre es requerido"
  const NameTooShort: string := "Nombre debe tener al menos 3 caracteres"

  const Passed: ValidationResult := ValidationResult(true, [])

  function Failed(message: string): ValidationResult {
    ValidationResult(false, [message])
  }

  /** JavaScript falsiness of an optional string: absent or empty. */
  predicate IsFalsy(field: Option<string>) {
    field.None? || field.value == ""
  }

  /** `EmailValidator.validate`. */
  function ValidateEmail(email: Option<string>): ValidationResult {
    if IsFalsy(email) then Failed(EmailRequired)
    else if !IsEmailShaped(email.value) then Failed(EmailInvalid)
    else Passed
  }

  /** `PasswordValidator.validate`; the length is counted in characters. */
  function ValidatePassword(password: Option<string>): ValidationResult {
    if IsFalsy(password) then Failed(PasswordRequired)
    else if |password.value| < 8 then Failed(PasswordTooShort)
    else Passed
  }

  /** `NameValidator.validate`: emptiness is judged after `trim`, the length before it. */
  function ValidateName(name: Option<string>): ValidationResult {
    if IsFalsy(name) || |Trim(name.value)| == 0 then Failed(NameRequired)
    else if |name.value| < 3 then Failed(NameTooShort)
    else Passed
  }

  /** A leaf result: valid with no errors, or invalid with exactly one. */
  predicate IsLeafResult(r: ValidationResult) {
    r == Passed || (!r.isValid && |r.errors| == 1)
  }

  lemma EmailVerdicts(email: Option<string>)
    ensures IsLeafResult(ValidateEmail(email))
    ensures ValidateEmail(email) == Failed(EmailRequired) <==> email.None? || email.value == ""
    ensures ValidateEmail(email) == Failed(EmailInvalid)
        <==> email.Some? && email.value != "" && !MatchesEmailPattern(email.value)
    ensures ValidateEmail(email).isValid <==> email.Some? && MatchesEmailPattern(email.value)
  {
    if email.Some? {
      EmailShapeIsPattern(email.value);
      if MatchesEmailPattern(email.value) {
        assert email.value != "";
      }
    }
  }

  lemma PasswordVerdicts(password: Option<string>)
    ensures IsLeafResult(ValidatePassword(password))
    ensures ValidatePassword(password) == Failed(PasswordRequired) <==> password.None? || password.value == ""
    ensures ValidatePassword(password) == Failed(PasswordTooShort)
        <==> password.Some? && 0 < |password.value| < 8
    ensures ValidatePassword(password).isValid <==> password.Some? && |password.value| >= 8
  {
  }

  lemma NameVerdicts(name: Option<string>)
    ensures IsLeafResult(ValidateName(name))
    ensures ValidateName(name) == Failed(NameRequired) <==> name.None? || AllSpace(name.value)
    ensures ValidateName(name) == Failed(NameTooShort)
        <==> name.Some? && !AllSpace(name.value) && |name.value| < 3
    ensures ValidateName(name).isValid <==> name.Some? && !AllSpace(name.value) && |name.value| >= 3
  {
    if name.Some? {
      TrimEmptyIffAllSpace(name.value);
    }
  }

  datatype Validator =
    | Email
    | Password
    | Name
    | Composite(validators: seq<Validator>)

  /** `validate(data)` of a validator tree. */
  function Evaluate(v: Validator, data: UserData): ValidationResult
    decreases v, 1
  {
    match v
    case Email => ValidateEmail(data.email)
    case Password => ValidatePassword(data.password)
    case Name => ValidateName(data.name)
    case Composite(validators) => Accumulate(validators, data)
  }

  /**
   * The composite's loop after it has visited `validators`: the flag is cleared
   * and the errors appended only for children that reported invalid.
   */
  function Accumulate(validators: seq<Validator>, data: UserData): ValidationResult
    decreases validators, 0
  {
    if validators == [] then Passed
    else
      var soFar := Accumulate(validators[..|validators| - 1], data);
      var last := Evaluate(validators[|validators| - 1], data);
      if last.isValid then soFar
      else ValidationResult(false, soFar.errors + last.errors)
  }

  /** Every child's errors, in child order, valid or not. */
  function AllErrors(validators: seq<Validator>, data: UserData): seq<string> {
    if validators == [] then []
    else Evaluate(validators[0], data).errors + AllErrors(validators[1..], data)
  }

  /** A validator tree reports valid exactly when it reports no error. */
  lemma {:induction false} ValidIffNoErrors(v: Validator, data: UserData)
    ensures Evaluate(v, data).isValid <==> Evaluate(v, data).errors == []
    decreases v, 1
  {
    match v
    case Email => EmailVerdicts(data.email);
    case Password => PasswordVerdicts(data.password);
    case Name => NameVerdicts(data.name);
    case Composite(validators) => AccumulateValidIffNoErrors(validators, data);
  }

  lemma {:induction false} AccumulateValidIffNoErrors(validators: seq<Validator>, data: UserData)
    ensures Accumulate(validators, data).isValid <==> Accumulate(validators, data).errors == []
    decreases validators, 0
  {
    if validators != [] {
      AccumulateValidIffNoErrors(validators[..|validators| - 1], data);
      ValidIffNoErrors(validators[|validators| - 1], data);
    }
  }

  lemma {:induction false} AllErrorsAppend(validators: seq<Validator>, v: Validator, data: UserData)
    ensures AllErrors(validators + [v], data) == AllErrors(validators, data) + Evaluate(v, data).errors
  {
    if validators == [] {
      assert [v][1..] == [];
    } else {
      assert (validators + [v])[1..] == validators[1..] + [v];
      AllErrorsAppend(validators[1..], v, data);
    }
  }

  /**
   * The composite's result: valid exactly when every child is valid, and its
   * errors are all the children's errors concatenated in child order.
   */
  lemma {:induction false} AccumulateMeaning(validators: seq<Validator>, data: UserData)
    ensures Accumulate(validators, data).isValid
        <==> forall i | 0 <= i < |validators| :: Evaluate(validators[i], data).isValid
    ensures Accumulate(validators, data).errors == AllErrors(validators, data)
  {
    if validators != [] {
      var front, last := validators[..|validators| - 1], validators[|validators| - 1];
      AccumulateMeaning(front, data);
      ValidIffNoErrors(last, data);
      assert validators == front + [last];
      AllErrorsAppend(front, last, data);
    }
  }

  /** A composite with no children is valid with no errors. */
  lemma EmptyCompositePasses(data: UserData)
    ensures Evaluate(Composite([]), data) == Passed
  {
  }

  /**
   * `CompositeValidator`: an ordered child list; `add` appends in place and
   * `validate` runs every child, with no short-circuit.
   */
  class CompositeValidator {
    var validators: seq<Validator>

    constructor ()
      ensures validators == []
    {
      validators := [];
    }

    /** `add(validator)` with a single validator. */
    method Add(validator: Validator)
      modifies this
      ensures validators == old(validators) + [validator]
    {
      validators := validators + [validator];
    }

    /** `add([...])` with an array: appends all of it, in order. */
    method AddAll(batch: seq<Validator>)
      modifies this
      ensures validators == old(validators) + batch
    {
      validators := validators + batch;
    }

    /** The tree this object currently stands for. */
    function AsValidator(): Validator
      reads this
    {
      Composite(validators)
    }

    /** `validate(data)`: one pass over the children, changing nothing. */
    method Validate(data: UserData) returns (result: ValidationResult)
      ensures result == Evaluate(AsValidator(), data)
      ensures result.isValid <==> forall i | 0 <= i < |validators| :: Evaluate(validators[i], data).isValid
      ensures result.errors == AllErrors(validators, data)
    {
      var allErrors: seq<string> := [];
      var isValid := true;
      for i := 0 to |validators|
        invariant ValidationResult(isValid, allErrors) == Accumulate(validators[..i], data)
      {
        var childResult := Evaluate(validators[i], data);
        if !childResult.isValid {
          isValid := false;
          allErrors := allErrors + childResult.errors;
        }
        assert validators[..i + 1][..i] == validators[..i];
      }
      assert validators[..|validators|] == validators;
      result := ValidationResult(isValid, allErrors);
      AccumulateMeaning(validators, data);
    }
  }
}
