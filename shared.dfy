/** The types shared by client and server: the role enumeration, the
    public user record, the login response and the token payload, and
    the typed request payloads the client sends. */
module Shared {
  import opened Wrappers

  /** `UserRole`: an administrator (`'admin'`) or a standard user (`'user'`). */
  datatype UserRole = Admin | StandardUser

  /** The string value each role carries on the wire. */
  function RoleValue(r: UserRole): string {
    match r
    case Admin => "admin"
    case StandardUser => "user"
  }

  /** `Object.values(UserRole)`, the set `IsEnum(UserRole)` accepts. */
  const ROLE_VALUES: seq<string> := ["admin", "user"]

  /** The role whose wire value is `s`, if any. */
  function ParseRole(s: string): (r: Option<UserRole>)
    ensures r.Some? <==> s in ROLE_VALUES
  {
    if s == "admin" then Some(Admin)
    else if s == "user" then Some(StandardUser)
    else None
  }

  /** Parsing a role's wire value gives the role back, and every accepted
      string is the wire value of the role it parses to. */
  lemma RoleValueRoundTrip(r: UserRole, s: string)
    ensures ParseRole(RoleValue(r)) == Some(r)
    ensures RoleValue(r) in ROLE_VALUES
    ensures ParseRole(s).Some? ==> RoleValue(ParseRole(s).value) == s
  {
  }

  /** The public user record (`User`): no password field exists in it. */
  datatype User = User(
    id: int,
    email: string,
    firstName: string,
    lastName: string,
    role: UserRole,
    isActive: bool,
    createdAt: Option<string>,
    updatedAt: Option<string>)

  /** The body of a successful login response. */
  datatype LoginResponse = LoginResponse(access_token: string, user: User)

  /** The claims carried by a session token; `iat` and `exp` are added by
      the signer. */
  datatype JwtPayload = JwtPayload(
    email: string,
    sub: int,
    role: UserRole,
    firstName: string,
    lastName: string,
    iat: Option<int>,
    exp: Option<int>)

  /** Login credentials, as typed once validation has accepted them. */
  datatype LoginDto = LoginDto(email: string, password: string)

  /** The payload of a create-user request, as the client types it. */
  datatype CreateUserDto = CreateUserDto(
    email: string,
    firstName: string,
    lastName: string,
    password: string,
    role: Option<UserRole>,
    isActive: Option<bool>)

  /** The payload of an update-user request: every field optional. */
  datatype UpdateUserDto = UpdateUserDto(
    email: Option<string>,
    firstName: Option<string>,
    lastName: Option<string>,
    password: Option<string>,
    role: Option<UserRole>,
    isActive: Option<bool>)
}
