/** The validation rules of `server/src/modules/users/user.dto.ts`:
    `CreateUserDto`, `UpdateUserDto` and `LoginDto`. */
module ModulesUsersDto {
  import opened ClassValidator

  const CREATE_USER_DTO: DtoRules := [
    PropertyRule("email", false, [IsEmail]),
    PropertyRule("firstName", false, [IsString, MinLength(2)]),
    PropertyRule("lastName", false, [IsString, MinLength(2)]),
    PropertyRule("password", false, [IsString, MinLength(6)]),
    PropertyRule("role", true, [IS_ROLE]),
    PropertyRule("isActive", true, [IsBoolean])
  ]

  const UPDATE_USER_DTO: DtoRules := [
    PropertyRule("email", true, [IsEmail]),
    PropertyRule("firstName", true, [IsString, MinLength(2)]),
    PropertyRule("lastName", true, [IsString, MinLength(2)]),
    PropertyRule("password", true, [IsString, MinLength(6)]),
    PropertyRule("role", true, [IS_ROLE]),
    PropertyRule("isActive", true, [IsBoolean])
  ]

  const LOGIN_DTO: DtoRules := [
    PropertyRule("email", false, [IsEmail]),
    PropertyRule("password", false, [IsString])
  ]

  /** A valid create body has an email address, names of at least two
      characters and a password of at least six; `role` and `isActive`
      may be missing, and when present are a role value and a boolean. */
  lemma CreateUserDtoValid(body: JsonObject, isEmail: EmailCheck)
    ensures Valid(CREATE_USER_DTO, body, isEmail) <==>
      EmailAt(body, "email", isEmail)
      && StringAt(body, "firstName", 2) && StringAt(body, "lastName", 2)
      && StringAt(body, "password", 6)
      && (Missing(body, "role") || RoleAt(body, "role"))
      && (Missing(body, "isActive") || BoolAt(body, "isActive"))
  {
    EmailRule(body, "email", false, isEmail);
    MinLengthRule(body, "firstName", false, 2, isEmail);
    MinLengthRule(body, "lastName", false, 2, isEmail);
    MinLengthRule(body, "password", false, 6, isEmail);
    RoleRule(body, "role", true, isEmail);
    BoolRule(body, "isActive", true, isEmail);
    var r := CREATE_USER_DTO;
    assert forall rule :: rule in r <==>
      (rule == r[0] || rule == r[1] || rule == r[2] || rule == r[3] || rule == r[4] || rule == r[5]);
  }

  /** Every property of an update body may be missing; a present one obeys
      the create bounds. */
  lemma UpdateUserDtoValid(body: JsonObject, isEmail: EmailCheck)
    ensures Valid(UPDATE_USER_DTO, body, isEmail) <==>
      (Missing(body, "email") || EmailAt(body, "email", isEmail))
      && (Missing(body, "firstName") || StringAt(body, "firstName", 2))
      && (Missing(body, "lastName") || StringAt(body, "lastName", 2))
      && (Missing(body, "password") || StringAt(body, "password", 6))
      && (Missing(body, "role") || RoleAt(body, "role"))
      && (Missing(body, "isActive") || BoolAt(body, "isActive"))
  {
    EmailRule(body, "email", true, isEmail);
    MinLengthRule(body, "firstName", true, 2, isEmail);
    MinLengthRule(body, "lastName", true, 2, isEmail);
    MinLengthRule(body, "password", true, 6, isEmail);
    RoleRule(body, "role", true, isEmail);
    BoolRule(body, "isActive", true, isEmail);
    var r := UPDATE_USER_DTO;
    assert forall rule :: rule in r <==>
      (rule == r[0] || rule == r[1] || rule == r[2] || rule == r[3] || rule == r[4] || rule == r[5]);
  }

  /** An empty update body is valid, and any valid create body is a valid
      update body. */
  lemma UpdateAcceptsEmptyAndCreate(body: JsonObject, isEmail: EmailCheck)
    ensures Valid(UPDATE_USER_DTO, map[], isEmail)
    ensures Valid(CREATE_USER_DTO, body, isEmail) ==> Valid(UPDATE_USER_DTO, body, isEmail)
  {
    UpdateUserDtoValid(map[], isEmail);
    UpdateUserDtoValid(body, isEmail);
    CreateUserDtoValid(body, isEmail);
  }

  /** A valid login body has an email address and a string password,
      which may be empty. */
  lemma LoginDtoValid(body: JsonObject, isEmail: EmailCheck)
    ensures Valid(LOGIN_DTO, body, isEmail) <==>
      EmailAt(body, "email", isEmail) && StringAt(body, "password", 0)
  {
    EmailRule(body, "email", false, isEmail);
    StringRule(body, "password", false, isEmail);
    var r := LOGIN_DTO;
    assert forall rule :: rule in r <==> rule == r[0] || rule == r[1];
  }
}
