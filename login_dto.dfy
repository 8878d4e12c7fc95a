/** The validation rules of `server/src/auth/dto/login.dto.ts`, a login
    DTO that demands a six-character password. */
module AuthLoginDto {
  import opened ClassValidator
  import ModulesUsersDto

  const LOGIN_DTO: DtoRules := [
    PropertyRule("email", false, [IsEmail]),
    PropertyRule("password", false, [IsString, MinLength(6)])
  ]

  /** A valid body has an email address and a password of at least six
      characters; both are required. */
  lemma LoginDtoValid(body: JsonObject, isEmail: EmailCheck)
    ensures Valid(LOGIN_DTO, body, isEmail) <==>
      EmailAt(body, "email", isEmail) && StringAt(body, "password", 6)
  {
    EmailRule(body, "email", false, isEmail);
    MinLengthRule(body, "password", false, 6, isEmail);
    var r := LOGIN_DTO;
    assert forall rule :: rule in r <==> (rule == r[0] || rule == r[1]);
  }

  /** A body valid here is a valid login body for the user DTO file, but a
      password shorter than six characters separates the two. */
  lemma StricterThanModulesCopy(body: JsonObject, isEmail: EmailCheck, email: string, password: string)
    requires isEmail(email) && |password| < 6
    ensures Valid(LOGIN_DTO, body, isEmail) ==> Valid(ModulesUsersDto.LOGIN_DTO, body, isEmail)
    ensures var short := map["email" := JString(email), "password" := JString(password)];
      !Valid(LOGIN_DTO, short, isEmail) && Valid(ModulesUsersDto.LOGIN_DTO, short, isEmail)
  {
    LoginDtoValid(body, isEmail);
    ModulesUsersDto.LoginDtoValid(body, isEmail);
    var short := map["email" := JString(email), "password" := JString(password)];
    LoginDtoValid(short, isEmail);
    ModulesUsersDto.LoginDtoValid(short, isEmail);
  }
}
