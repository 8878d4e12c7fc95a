/** The validation rules of `server/src/modules/users/dto/update-user.dto.ts`,
    an update DTO whose names need only be strings. */
module UpdateUserDtoRules {
  import opened ClassValidator
  import ModulesUsersDto

  const UPDATE_USER_DTO: DtoRules := [
    PropertyRule("email", true, [IsEmail]),
    PropertyRule("firstName", true, [IsString]),
    PropertyRule("lastName", true, [IsString]),
    PropertyRule("password", true, [IsString, MinLength(6)]),
    PropertyRule("role", true, [IS_ROLE]),
    PropertyRule("isActive", true, [IsBoolean])
  ]

  /** Every property may be missing; a present email is an address, present
      names are strings of any length, a present password has at least six
      characters, a present role is a role value and a present flag a
      boolean. */
  lemma UpdateUserDtoValid(body: JsonObject, isEmail: EmailCheck)
    ensures Valid(UPDATE_USER_DTO, body, isEmail) <==>
      (Missing(body, "email") || EmailAt(body, "email", isEmail))
      && (Missing(body, "firstName") || StringAt(body, "firstName", 0))
      && (Missing(body, "lastName") || StringAt(body, "lastName", 0))
      && (Missing(body, "password") || StringAt(body, "password", 6))
      && (Missing(body, "role") || RoleAt(body, "role"))
      && (Missing(body, "isActive") || BoolAt(body, "isActive"))
  {
    EmailRule(body, "email", true, isEmail);
    StringRule(body, "firstName", true, isEmail);
    StringRule(body, "lastName", true, isEmail);
    MinLengthRule(body, "password", true, 6, isEmail);
    RoleRule(body, "role", true, isEmail);
    BoolRule(body, "isActive", true, isEmail);
    var r := UPDATE_USER_DTO;
    assert forall rule :: rule in r <==>
      (rule == r[0] || rule == r[1] || rule == r[2] || rule == r[3] || rule == r[4] || rule == r[5]);
  }

  /** The empty body is valid; so is every body the documented update DTO
      accepts, and a one-letter name that one rejects. */
  lemma LooserThanModulesCopy(body: JsonObject, isEmail: EmailCheck)
    ensures Valid(UPDATE_USER_DTO, map[], isEmail)
    ensures Valid(ModulesUsersDto.UPDATE_USER_DTO, body, isEmail) ==> Valid(UPDATE_USER_DTO, body, isEmail)
    ensures Valid(UPDATE_USER_DTO, map["firstName" := JString("J")], isEmail)
    ensures !Valid(ModulesUsersDto.UPDATE_USER_DTO, map["firstName" := JString("J")], isEmail)
  {
    UpdateUserDtoValid(map[], isEmail);
    UpdateUserDtoValid(body, isEmail);
    ModulesUsersDto.UpdateUserDtoValid(body, isEmail);
    UpdateUserDtoValid(map["firstName" := JString("J")], isEmail);
    ModulesUsersDto.UpdateUserDtoValid(map["firstName" := JString("J")], isEmail);
  }
}
