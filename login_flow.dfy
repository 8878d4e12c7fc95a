/** How the pieces meet: the server's login result as the token strategy
    and the client store see it, and the two token-secret fallbacks. */
module LoginFlow {
  import opened Wrappers
  import opened Shared
  import opened AuthService
  import JwtStrategy
  import AuthActions
  import AuthStore
  import Env
  import Config

  /** The identity the strategy derives from the claims signed at login is
      the account's id, email, role and names. */
  lemma StrategyIdentityOfLoginPayload(u: UserEntity)
    ensures JwtStrategy.Validate(LoginPayload(WithoutPassword(u)))
         == JwtStrategy.RequestUser(u.id, u.email, u.role, u.firstName, u.lastName)
  {
  }

  /** After a successful login, the signed claims identify the stored
      account. */
  lemma LoginIdentifiesAccount(store: UserStore, check: PasswordCheck, sign: Signer, dto: LoginDto)
    requires Login(store, check, sign, dto).Success?
    ensures dto.email in store
    ensures var u := store[dto.email];
      var user := ValidateUser(store, check, dto.email, dto.password);
      user.Some?
      && Login(store, check, sign, dto).value.access_token == sign(LoginPayload(user.value))
      && JwtStrategy.Validate(LoginPayload(user.value))
         == JwtStrategy.RequestUser(u.id, u.email, u.role, u.firstName, u.lastName)
  {
  }

  /** Handing a successful login response to the client store
      authenticates the session with that token and the account's public
      view, and keeps the session consistent. */
  lemma LoginResponseAuthenticatesClient(
    store: UserStore, check: PasswordCheck, sign: Signer, dto: LoginDto, s: AuthStore.AuthState)
    requires Login(store, check, sign, dto).Success?
    requires AuthStore.SessionConsistent(s)
    ensures dto.email in store
    ensures var response := Login(store, check, sign, dto).value;
      var r := AuthStore.Reduce(s, AuthActions.LoginSuccess(response));
      var u := store[dto.email];
      r.isAuthenticated && r.token == Some(response.access_token)
      && r.user == Some(User(u.id, u.email, u.firstName, u.lastName, u.role, true, None, None))
      && AuthStore.SessionConsistent(r)
  {
    LoginSuccessUser(store, check, sign, dto);
  }

  /** The strategy verifies with the configured secret only when
      `JWT_SECRET` is set: the two fallbacks differ. */
  lemma SecretsAgreeOnlyWhenSet(processEnv: Env.Environment, env: Env.Environment)
    ensures JwtStrategy.SecretOrKey(env) == Config.LoadConfig(processEnv, env).jwt.secret
        <==> Env.IsSet(env, "JWT_SECRET")
  {
  }
}
