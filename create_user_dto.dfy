/** The validation rules of `server/src/modules/users/dto/create-user.dto.ts`,
    a create DTO whose names need only be strings. */
module CreateUserDtoRules {
  import opened ClassValidator
  import ModulesUsersDto

  const CREATE_USER_DTO: DtoRules := [
    PropertyRule("email", false, [IsEmail]),
    PropertyRule("firstName", false, [IsString]),
    PropertyRule("lastName", false, [IsString]),
    PropertyRule("password", false, [IsString, MinLength(6)]),
    PropertyRule("role", true, [IS_ROLE]),
    PropertyRule("isActive", true, [IsBoolean])
  ]

  /** A valid body has an email address, string names of any length and a
      password of at least six characters; `role` and `isActive` may be
      missing, and when present are a role value and a boolean. */
  lemma CreateUserDtoValid(body: JsonObject, isEmail: EmailCheck)
    ensures Valid(CREATE_USER_DTO, body, isEmail) <==>
      EmailAt(body, "email", isEmail)
      && StringAt(body, "firstName", 0) && StringAt(body, "lastName", 0)
      && StringAt(body, "password", 6)
      && (Missing(body, "role") || RoleAt(body, "role"))
      && (Missing(body, "isActive") || BoolAt(body, "isActive"))
  {
    EmailRule(body, "email", false, isEmail);
    StringRule(body, "firstName", false, isEmail);
    StringRule(body, "lastName", false, isEmail);
    MinLengthRule(body, "password", false, 6, isEmail);
    RoleRule(body, "role", true, isEmail);
    BoolRule(body, "isActive", true, isEmail);
    var r := CREATE_USER_DTO;
    assert forall rule :: rule in r <==>
      (rule == r[0] || rule == r[1] || rule == r[2] || rule == r[3] || rule == r[4] || rule == r[5]);
  }

  /** This variant accepts every body the documented create DTO accepts,
      and also empty names, which that one rejects. */
  lemma LooserThanModulesCopy(body: JsonObject, isEmail: EmailCheck, email: string)
    requires isEmail(email)
    ensures Valid(ModulesUsersDto.CREATE_USER_DTO, body, isEmail) ==> Valid(CREATE_USER_DTO, body, isEmail)
    ensures var emptyNames := map[
        "email" := JString(email), "firstName" := JString(""),
        "lastName" := JString(""), "password" := JString("secret")];
      Valid(CREATE_USER_DTO, emptyNames, isEmail)
      && !Valid(ModulesUsersDto.CREATE_USER_DTO, emptyNames, isEmail)
  {
    CreateUserDtoValid(body, isEmail);
    ModulesUsersDto.CreateUserDtoValid(body, isEmail);
    var emptyNames := map[
        "email" := JString(email), "firstName" := JString(""),
        "lastName" := JString(""), "password" := JString("secret")];
    CreateUserDtoValid(emptyNames, isEmail);
    ModulesUsersDto.CreateUserDtoValid(emptyNames, isEmail);
  }
}
