/**
 * The named validator composites: personal data (name, then email) and user
 * registration (personal data, then password), with the answers the
 * validation driver records.
 */
module UserValidators {
  import opened Wrappers
  import opened TextRules
  import opened Validators

  /** The tree a `PersonalDataValidator` holds. */
  const PersonalDataRules: Validator := Composite([Name, Email])

  /** The tree a `UserRegistrationValidator` holds: a composite nested in a composite. */
  const RegistrationRules: Validator := Composite([PersonalDataRules, Password])

  /** `new PersonalDataValidator()`: a composite filled through `add`. */
  method NewPersonalDataValidator() returns (v: CompositeValidator)
    ensures fresh(v)
    ensures v.validators == [Name, Email]
    ensures v.AsValidator() == PersonalDataRules
  {
    v := new CompositeValidator();
    v.AddAll([Name, Email]);
  }

  /** `new UserRegistrationValidator()`. */
  method NewUserRegistrationValidator() returns (v: CompositeValidator)
    ensures fresh(v)
    ensures v.validators == [PersonalDataRules, Password]
    ensures v.AsValidator() == RegistrationRules
  {
    v := new CompositeValidator();
    var personalData := NewPersonalDataValidator();
    v.AddAll([personalData.AsValidator(), Password]);
  }

  lemma AllErrorsOfPair(a: Validator, b: Validator, data: UserData)
    ensures AllErrors([a, b], data) == Evaluate(a, data).errors + Evaluate(b, data).errors
  {
    assert [a, b][1..] == [b];
    assert [b][1..] == [];
    assert AllErrors([b], data) == Evaluate(b, data).errors + [];
  }

  /** Personal data: valid iff name and email are, errors of the name first, then of the email. */
  lemma PersonalDataMeaning(data: UserData)
    ensures Evaluate(PersonalDataRules, data).isValid
        <==> ValidateName(data.name).isValid && ValidateEmail(data.email).isValid
    ensures Evaluate(PersonalDataRules, data).errors
         == ValidateName(data.name).errors + ValidateEmail(data.email).errors
  {
    AccumulateMeaning([Name, Email], data);
    AllErrorsOfPair(Name, Email, data);
  }

  /** Registration: valid iff all three fields are; errors of name, then email, then password. */
  lemma RegistrationMeaning(data: UserData)
    ensures Evaluate(RegistrationRules, data).isValid
        <==> ValidateName(data.name).isValid && ValidateEmail(data.email).isValid
             && ValidatePassword(data.password).isValid
    ensures Evaluate(RegistrationRules, data).errors
         == ValidateName(data.name).errors + ValidateEmail(data.email).errors
            + ValidatePassword(data.password).errors
  {
    PersonalDataMeaning(data);
    AccumulateMeaning([PersonalDataRules, Password], data);
    AllErrorsOfPair(PersonalDataRules, Password, data);
  }

  lemma NoAtSignIsNotEmail(s: string)
    requires forall i | 0 <= i < |s| :: s[i] != '@'
    ensures !IsEmailShaped(s)
  {
  }

  lemma ExampleComIsEmail(local: string)
    requires PlainRun(local)
    ensures IsEmailShaped(local + "@example.com")
  {
    var s := local + "@example.com";
    var at := |local|;
    assert s[..at] == local;
    assert s[at + 1..] == "example.com";
    assert "example.com"[7] == '.';
    assert IsDottedDomain("example.com");
  }

  /** The driver's direct email checks. */
  lemma TestEmailPasses()
    ensures ValidateEmail(Some("test@example.com")) == Passed
  {
    ExampleComIsEmail("test");
    assert "test" + "@example.com" == "test@example.com";
  }

  /** The address of the driver's payloads; a lemma of its own, as the literal is costly to unfold inside a larger proof. */
  lemma JuanEmailPasses()
    ensures ValidateEmail(Some("juan@example.com")) == Passed
  {
    ExampleComIsEmail("juan");
    assert "juan" + "@example.com" == "juan@example.com";
  }

  lemma DashedEmailFails()
    ensures ValidateEmail(Some("email-invalido")) == Failed(EmailInvalid)
  {
    NoAtSignIsNotEmail("email-invalido");
  }

  /** A name of one or two characters, not starting with white space, is too short. */
  lemma ShortNameFails(name: string)
    requires 0 < |name| < 3 && !IsSpace(name[0])
    ensures ValidateName(Some(name)) == Failed(NameTooShort)
  {
    NameVerdicts(Some(name));
  }

  /** A name of three or more characters, not starting with white space, passes. */
  lemma LongNamePasses(name: string)
    requires |name| >= 3 && !IsSpace(name[0])
    ensures ValidateName(Some(name)) == Passed
  {
    NameVerdicts(Some(name));
  }

  /** The driver's personal-data checks. */
  lemma PersonalDataScenarios()
    ensures Evaluate(PersonalDataRules, UserData(Some("Juan"), Some("juan@example.com"), None)) == Passed
    ensures Evaluate(PersonalDataRules, UserData(Some("Jo"), Some("email-invalido"), None))
         == ValidationResult(false, [NameTooShort, EmailInvalid])
  {
    JuanEmailPasses();
    DashedEmailFails();
    LongNamePasses("Juan");
    ShortNameFails("Jo");
    PersonalDataMeaning(UserData(Some("Juan"), Some("juan@example.com"), None));
    PersonalDataMeaning(UserData(Some("Jo"), Some("email-invalido"), None));
  }

  /** The driver's clean registration payload passes. */
  lemma RegistrationPassesScenario()
    ensures Evaluate(RegistrationRules, UserData(Some("Juan Pérez"), Some("juan@example.com"), Some("password123")))
         == Passed
  {
    var data := UserData(Some("Juan Pérez"), Some("juan@example.com"), Some("password123"));
    JuanEmailPasses();
    LongNamePasses("Juan Pérez");
    assert ValidatePassword(data.password) == Passed;
    RegistrationMeaning(data);
  }

  /** A payload failing all three rules gets all three messages, in field order. */
  lemma RegistrationFailsEverywhere(data: UserData)
    requires ValidateName(data.name) == Failed(NameTooShort)
    requires ValidateEmail(data.email) == Failed(EmailInvalid)
    requires ValidatePassword(data.password) == Failed(PasswordTooShort)
    ensures Evaluate(RegistrationRules, data) == ValidationResult(false, [NameTooShort, EmailInvalid, PasswordTooShort])
  {
    RegistrationMeaning(data);
  }

  lemma ShortPasswordFails()
    ensures ValidatePassword(Some("123")) == Failed(PasswordTooShort)
  {
  }

  /** The driver's bad registration payload fails all three rules at once, reported in order. */
  lemma RegistrationFailsScenario()
    ensures Evaluate(RegistrationRules, UserData(Some("Jo"), Some("email-invalido"), Some("123")))
         == ValidationResult(false, [NameTooShort, EmailInvalid, PasswordTooShort])
  {
    DashedEmailFails();
    ShortNameFails("Jo");
    ShortPasswordFails();
    RegistrationFailsEverywhere(UserData(Some("Jo"), Some("email-invalido"), Some("123")));
  }

  /** The name rule measures length before trimming, so a padded one-letter name passes. */
  lemma PaddedShortNamePasses()
    ensures ValidateName(Some("  a")) == Passed
  {
    NameVerdicts(Some("  a"));
    assert !AllSpace("  a") by { assert !IsSpace("  a"[2]); }
  }
}
