/** The server's login decision: look the account up by email, check the
    active flag and the password, then build the token payload and the
    public view of the account. The user store is only read. */
module AuthService {
  import opened Wrappers
  import opened Shared

  /** The persisted account, password hash included. */
  datatype UserEntity = UserEntity(
    id: int,
    email: string,
    firstName: string,
    lastName: string,
    password: string,
    role: UserRole,
    isActive: bool,
    createdAt: string,
    updatedAt: string)

  /** `Omit<UserEntity, 'password'>`: the account without its hash. */
  datatype SafeUser = SafeUser(
    id: int,
    email: string,
    firstName: string,
    lastName: string,
    role: UserRole,
    isActive: bool,
    createdAt: string,
    updatedAt: string)

  /** The accounts, keyed by the email the lookup matches on. */
  type UserStore = map<string, UserEntity>

  /** `validatePassword(plain, hash)`, supplied by the users service. */
  type PasswordCheck = (string, string) -> bool

  /** `jwtService.sign(payload)`, supplied by the token library. */
  type Signer = JwtPayload -> string

  const INVALID_CREDENTIALS: string := "Invalid credentials"
  const ACCOUNT_DEACTIVATED: string := "Account is deactivated. Please contact an administrator."

  /** The `UnauthorizedException` the service throws. */
  datatype AuthError = Unauthorized(message: string)

  /** `findByEmail`: the account stored under that email, or null. */
  function FindByEmail(store: UserStore, email: string): Option<UserEntity> {
    if email in store then Some(store[email]) else None
  }

  /** `const { password: _, ...result } = user`. */
  function WithoutPassword(u: UserEntity): SafeUser {
    SafeUser(u.id, u.email, u.firstName, u.lastName, u.role, u.isActive, u.createdAt, u.updatedAt)
  }

  /** Puts a hash back on a stripped account: the inverse of
      `WithoutPassword`. */
  function WithPassword(s: SafeUser, password: string): UserEntity {
    UserEntity(s.id, s.email, s.firstName, s.lastName, password, s.role, s.isActive, s.createdAt, s.updatedAt)
  }

  /** Stripping the hash loses exactly the hash: putting it back restores
      the account, and every other field is carried over. */
  lemma WithoutPasswordLosesOnlyPassword(u: UserEntity)
    ensures WithPassword(WithoutPassword(u), u.password) == u
    ensures var s := WithoutPassword(u);
      s.id == u.id && s.email == u.email && s.firstName == u.firstName
      && s.lastName == u.lastName && s.role == u.role && s.isActive == u.isActive
      && s.createdAt == u.createdAt && s.updatedAt == u.updatedAt
  {
  }

  /** `validateUser`: non-null exactly when the email is found, the
      account is active and the password checks against its hash; the
      result is then that account without its hash. */
  function ValidateUser(store: UserStore, check: PasswordCheck, email: string, password: string)
    : (r: Option<SafeUser>)
    ensures r.Some? <==>
      email in store && store[email].isActive && check(password, store[email].password)
    ensures r.Some? ==> WithPassword(r.value, store[email].password) == store[email]
  {
    match FindByEmail(store, email)
    case None => None
    case Some(user) =>
      if user.isActive && check(password, user.password) then Some(WithoutPassword(user)) else None
  }

  /** The claims signed on login. */
  function LoginPayload(u: SafeUser): JwtPayload {
    JwtPayload(u.email, u.id, u.role, u.firstName, u.lastName, None, None)
  }

  /** The `user` object of the login response. */
  function PublicView(u: SafeUser): User {
    User(u.id, u.email, u.firstName, u.lastName, u.role, u.isActive, None, None)
  }

  /** `login`: on a failed validation, a second lookup tells a
      deactivated account apart from bad credentials. */
  function Login(store: UserStore, check: PasswordCheck, sign: Signer, dto: LoginDto)
    : Result<LoginResponse, AuthError>
  {
    match ValidateUser(store, check, dto.email, dto.password)
    case None =>
      var existing := FindByEmail(store, dto.email);
      if existing.Some? && !existing.value.isActive then Failure(Unauthorized(ACCOUNT_DEACTIVATED))
      else Failure(Unauthorized(INVALID_CREDENTIALS))
    case Some(user) =>
      Success(LoginResponse(sign(LoginPayload(user)), PublicView(user)))
  }

  /** `getProfile`: the six public fields of the user, nothing else. */
  function GetProfile(u: User): User {
    User(u.id, u.email, u.firstName, u.lastName, u.role, u.isActive, None, None)
  }

  // ---------------------------------------------------------------------
  // Login outcomes

  lemma LoginUnknownEmail(store: UserStore, check: PasswordCheck, sign: Signer, dto: LoginDto)
    requires dto.email !in store
    ensures Login(store, check, sign, dto) == Failure(Unauthorized(INVALID_CREDENTIALS))
  {
  }

  /** An inactive account is refused as deactivated whatever the password. */
  lemma LoginInactiveAccount(store: UserStore, check: PasswordCheck, sign: Signer, dto: LoginDto)
    requires dto.email in store && !store[dto.email].isActive
    ensures Login(store, check, sign, dto) == Failure(Unauthorized(ACCOUNT_DEACTIVATED))
  {
  }

  /** An active account with a wrong password is refused as bad
      credentials, never as deactivated. */
  lemma LoginWrongPassword(store: UserStore, check: PasswordCheck, sign: Signer, dto: LoginDto)
    requires dto.email in store && store[dto.email].isActive
    requires !check(dto.password, store[dto.email].password)
    ensures Login(store, check, sign, dto) == Failure(Unauthorized(INVALID_CREDENTIALS))
  {
  }

  /** Login has exactly three outcomes: success exactly when validation
      succeeds, the deactivated error exactly for a stored inactive
      account, and bad credentials otherwise. */
  lemma LoginOutcomes(store: UserStore, check: PasswordCheck, sign: Signer, dto: LoginDto)
    ensures var r := Login(store, check, sign, dto);
      (r.Success? <==> ValidateUser(store, check, dto.email, dto.password).Some?)
      && (r == Failure(Unauthorized(ACCOUNT_DEACTIVATED)) <==>
            dto.email in store && !store[dto.email].isActive)
      && (r.Failure? ==>
            r.error == Unauthorized(ACCOUNT_DEACTIVATED) || r.error == Unauthorized(INVALID_CREDENTIALS))
  {
  }

  /** On success the token signs the account's id as `sub` with its email,
      role and names, and no timestamps. */
  lemma LoginSuccessPayload(store: UserStore, check: PasswordCheck, sign: Signer, dto: LoginDto)
    requires Login(store, check, sign, dto).Success?
    ensures dto.email in store
    ensures var u := store[dto.email];
      Login(store, check, sign, dto).value.access_token
        == sign(JwtPayload(u.email, u.id, u.role, u.firstName, u.lastName, None, None))
  {
  }

  /** On success the returned user carries the account's six public
      fields, is active, and has no timestamps (and no password field
      exists in the type). */
  lemma LoginSuccessUser(store: UserStore, check: PasswordCheck, sign: Signer, dto: LoginDto)
    requires Login(store, check, sign, dto).Success?
    ensures dto.email in store
    ensures var u := store[dto.email];
      Login(store, check, sign, dto).value.user
        == User(u.id, u.email, u.firstName, u.lastName, u.role, true, None, None)
  {
  }

  // ---------------------------------------------------------------------
  // Profile projection

  /** The profile keeps the six public fields and drops the timestamps, so
      applying it twice is applying it once, and two users have the same
      profile exactly when their six public fields agree. */
  lemma GetProfileProjects(u: User, v: User)
    ensures var p := GetProfile(u);
      p.id == u.id && p.email == u.email && p.firstName == u.firstName
      && p.lastName == u.lastName && p.role == u.role && p.isActive == u.isActive
      && p.createdAt == None && p.updatedAt == None
    ensures GetProfile(GetProfile(u)) == GetProfile(u)
    ensures GetProfile(u) == GetProfile(v) <==>
      u.id == v.id && u.email == v.email && u.firstName == v.firstName
      && u.lastName == v.lastName && u.role == v.role && u.isActive == v.isActive
  {
  }

  /** The login response's user is the profile view of the account. */
  lemma LoginUserIsProfile(u: SafeUser, createdAt: Option<string>, updatedAt: Option<string>)
    ensures PublicView(u)
      == GetProfile(User(u.id, u.email, u.firstName, u.lastName, u.role, u.isActive, createdAt, updatedAt))
  {
  }
}
