/** The validation rules of `server/src/users/user.dto.ts`, a second copy
    of the user DTO classes without the API documentation. */
module UsersUserDto {
  import opened ClassValidator
  import ModulesUsersDto

  const CREATE_USER_DTO: DtoRules := [
    PropertyRule("email", false, [IsEmail]),
    PropertyRule("firstName", false, [IsString, MinLength(2)]),
    PropertyRule("lastName", false, [IsString, MinLength(2)]),
    PropertyRule("password", false, [IsString, MinLength(6)]),
    PropertyRule("role", true, [IS_ROLE]),
    PropertyRule("isActive", true, [IsBoolean])
  ]

  const UPDATE_USER_DTO: DtoRules := [
    PropertyRule("email", true, [IsEmail]),
    PropertyRule("firstName", true, [IsString, MinLength(2)]),
    PropertyRule("lastName", true, [IsString, MinLength(2)]),
    PropertyRule("password", true, [IsString, MinLength(6)]),
    PropertyRule("role", true, [IS_ROLE]),
    PropertyRule("isActive", true, [IsBoolean])
  ]

  const LOGIN_DTO: DtoRules := [
    PropertyRule("email", false, [IsEmail]),
    PropertyRule("password", false, [IsString])
  ]

  /** This copy declares the same rules as the documented one. */
  lemma SameRulesAsModulesCopy()
    ensures CREATE_USER_DTO == ModulesUsersDto.CREATE_USER_DTO
    ensures UPDATE_USER_DTO == ModulesUsersDto.UPDATE_USER_DTO
    ensures LOGIN_DTO == ModulesUsersDto.LOGIN_DTO
  {
  }

  /** The create bounds: an email address, names of at least two
      characters, a password of at least six; role and flag optional. */
  lemma CreateUserDtoValid(body: JsonObject, isEmail: EmailCheck)
    ensures Valid(CREATE_USER_DTO, body, isEmail) <==>
      EmailAt(body, "email", isEmail)
      && StringAt(body, "firstName", 2) && StringAt(body, "lastName", 2)
      && StringAt(body, "password", 6)
      && (Missing(body, "role") || RoleAt(body, "role"))
      && (Missing(body, "isActive") || BoolAt(body, "isActive"))
  {
    ModulesUsersDto.CreateUserDtoValid(body, isEmail);
  }

  /** The update bounds: everything optional, present fields bounded as
      on create; the empty body passes. */
  lemma UpdateUserDtoValid(body: JsonObject, isEmail: EmailCheck)
    ensures Valid(UPDATE_USER_DTO, body, isEmail) <==>
      (Missing(body, "email") || EmailAt(body, "email", isEmail))
      && (Missing(body, "firstName") || StringAt(body, "firstName", 2))
      && (Missing(body, "lastName") || StringAt(body, "lastName", 2))
      && (Missing(body, "password") || StringAt(body, "password", 6))
      && (Missing(body, "role") || RoleAt(body, "role"))
      && (Missing(body, "isActive") || BoolAt(body, "isActive"))
    ensures Valid(UPDATE_USER_DTO, map[], isEmail)
  {
    ModulesUsersDto.UpdateUserDtoValid(body, isEmail);
    ModulesUsersDto.UpdateAcceptsEmptyAndCreate(body, isEmail);
  }

  /** The login password has no minimum length. */
  lemma LoginDtoValid(body: JsonObject, isEmail: EmailCheck)
    ensures Valid(LOGIN_DTO, body, isEmail) <==>
      EmailAt(body, "email", isEmail) && StringAt(body, "password", 0)
  {
    ModulesUsersDto.LoginDtoValid(body, isEmail);
  }
}
