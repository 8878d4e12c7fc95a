# Auth application core, modelled in Dafny

This project models the logic at the centre of a small user-management application: a NestJS server that issues JSON Web Tokens (JWTs), and an Angular client that keeps its session in an NgRx store. Four pieces are modelled and proved about:

1. **The client session reducer** (`AuthStore`, with actions in `AuthActions`). This is a pure function from a state and an action to the next state. `AuthStore.Reduce` models `authReducer`, and `AuthStore.Run` dispatches a sequence of actions. The reducer is proved, transition by transition, to change only the fields the source changes. The lemmas also cover the user-list updates (append, replace by id, remove by id), that logout resets from any state, and an invariant that every sequence of actions preserves: the authentication flag and the token are set together, and an authenticated session has a user.
2. **The server login decision** (`AuthService`). It looks the account up by email, checks the active flag and the password, then builds the token payload and the public user view. `AuthService.ValidateUser`, `AuthService.Login` and `AuthService.GetProfile` model `validateUser`, `login` and `getProfile`. The user store is a `map` that is only read. The password check and the token signer are function parameters with no fixed meaning.
3. **The token strategy's claim projection** (`JwtStrategy`). `JwtStrategy.Validate` models `validate`, and `JwtStrategy.SecretOrKey` models the key choice. The projection is proved to be the inverse of rebuilding the claims, and to lose only the timestamps. `LoginFlow` composes it with the claims that login signs.
4. **Request validation and configuration.**
   - `ClassValidator` gives the meaning of the `class-validator` decorators over a JSON body. `ClassValidator.Holds` is one decorator's test, `ClassValidator.Skipped` is `@IsOptional()`, and `ClassValidator.Valid` is the whole class check. Each DTO (data-transfer object) file is one module (`ModulesUsersDto`, `UsersUserDto`, `CreateUserDtoRules`, `UpdateUserDtoRules`, `AuthLoginDto`). Each module lists its decorator rules and proves what a valid body looks like, field by field, as an if-and-only-if. It also proves how the variants relate to each other.
   - `Config.LoadConfig` models `loadConfig`: the environment fallbacks, the comma split of `CORS_ORIGINS`, and the production-URL merge. The merge is a loop, as in the source, proved equal to the function the configuration uses.

Modelling choices:

- External collaborators are parameters:
  - the password check (`validatePassword`);
  - the token signer (`jwtService.sign`);
  - the email-address test behind `@IsEmail()`;
  - the process environment, as a `map<string, string>`.
- `loadConfig` reads `NODE_ENV` and `APP_ENV` before it loads the `.env` files, and every other variable after. `Config.LoadConfig` therefore takes two environments: the one the process started with, and the one after the files were loaded.
- JavaScript's `a || b` on strings treats `''` as false. `Env.IsSet` and `Env.Or` model this.

## Model

| member | source | states |
|---|---|---|
| `AuthStore.ReplaceById` | client/src/app/features/auth/store/auth.reducer.ts:113 | the list keeps its length; every entry whose id matches becomes the updated user, every other entry is unchanged in place |
| `AuthStore.RemoveById` | client/src/app/features/auth/store/auth.reducer.ts:131 | a user is in the result exactly when it was in the list with another id, and the list does not grow |
| `AuthStore.RemoveByIdCounts` | client/src/app/features/auth/store/auth.reducer.ts:131 | every user with another id keeps its number of occurrences; users with the id have none |
| `AuthStore.InitializeAuthKeepsState` | client/src/app/features/auth/store/auth.actions.ts:11-14 | `initializeAuth` has no handler, so the state is unchanged |
| `AuthStore.LoginRequested` | client/src/app/features/auth/store/auth.reducer.ts:27-31 | `login` sets `loading` and clears `error`; user, users, token and authentication flag are unchanged |
| `AuthStore.LoginSucceeded` | client/src/app/features/auth/store/auth.reducer.ts:33-40 | `loginSuccess` stores the response's user and token, authenticates, lowers `loading`, clears `error`, keeps `users` |
| `AuthStore.FailureRecordsError` | client/src/app/features/auth/store/auth.reducer.ts:42-139 | each of the six failure actions lowers `loading` and records its message; user, users, token and authentication flag are unchanged |
| `AuthStore.PlainRequestRaisesLoading` | client/src/app/features/auth/store/auth.reducer.ts:52-127 | the profile and user-management requests only raise `loading`, and even keep a previous `error` |
| `AuthStore.LogoutResets` | client/src/app/features/auth/store/auth.reducer.ts:14-49 | logout from any state gives the initial state, and a second logout changes nothing |
| `AuthStore.ProfileLoaded` | client/src/app/features/auth/store/auth.reducer.ts:57-61 | `loadProfileSuccess` sets the user and lowers `loading`, but neither authenticates nor touches the token |
| `AuthStore.ProfileWithoutAuthentication` | client/src/app/features/auth/store/auth.reducer.ts:57-61 | from the initial state, a loaded profile leaves a user present in an unauthenticated session with no token |
| `AuthStore.UsersLoaded` | client/src/app/features/auth/store/auth.reducer.ts:75-79 | `loadUsersSuccess` replaces the list and lowers `loading`; the rest is unchanged |
| `AuthStore.UserCreated` | client/src/app/features/auth/store/auth.reducer.ts:93-97 | `createUserSuccess` appends: the list grows by one, the old list is its prefix and the new user is last |
| `AuthStore.UserUpdated` | client/src/app/features/auth/store/auth.reducer.ts:111-115 | `updateUserSuccess` keeps length and order, replaces the entries with the user's id and leaves the others |
| `AuthStore.UserDeleted` | client/src/app/features/auth/store/auth.reducer.ts:129-133 | `deleteUserSuccess` leaves no entry with the id, keeps every other entry, keeps the survivors' order (a subsequence) and does not grow the list |
| `AuthStore.SessionChangesOnlyOnLoginOrLogout` | client/src/app/features/auth/store/auth.reducer.ts:23-140 | only a login success or a logout changes the token or the authentication flag |
| `AuthStore.UsersChangeOnlyOnUserSuccess` | client/src/app/features/auth/store/auth.reducer.ts:23-140 | only the load, create, update and delete successes and logout change the user list |
| `AuthStore.RemoveByIdIsSubsequence` | client/src/app/features/auth/store/auth.reducer.ts:131 | filtering by id keeps the survivors in their original relative order |
| `AuthStore.RemoveByIdAppend` | client/src/app/features/auth/store/auth.reducer.ts:131 | filtering distributes over concatenation |
| `AuthStore.RemoveByIdIdempotent` | client/src/app/features/auth/store/auth.reducer.ts:129-133 | deleting an id twice is deleting it once |
| `AuthStore.CreatedThenDeleted` | client/src/app/features/auth/store/auth.reducer.ts:93-133 | creating a user and then deleting its id leaves the list that deleting alone would |
| `AuthStore.ReplaceByIdIdempotent` | client/src/app/features/auth/store/auth.reducer.ts:111-115 | applying the same update twice is applying it once |
| `AuthStore.ReplaceByIdUnknownId` | client/src/app/features/auth/store/auth.reducer.ts:113 | an update for an id the list does not hold leaves the list unchanged |
| `AuthStore.RemoveAfterReplace` | client/src/app/features/auth/store/auth.reducer.ts:111-133 | deleting an id after updating it equals deleting it |
| `AuthStore.RunAppend` | client/src/app/features/auth/store/auth.reducer.ts:23-140 | dispatching two action sequences one after the other is dispatching their concatenation |
| `AuthStore.RunEndingInLogout` | client/src/app/features/auth/store/auth.reducer.ts:49 | any action history that ends in logout leaves the initial state |
| `AuthStore.ReducePreservesSession` | client/src/app/features/auth/store/auth.reducer.ts:23-140 | every transition keeps "authenticated exactly when a token is held, and authenticated only with a user" |
| `AuthStore.RunPreservesSession` | client/src/app/features/auth/store/auth.reducer.ts:14-140 | that invariant holds after any sequence of actions from a consistent state, the initial state included |
| `Shared.ParseRole` | client/src/app/models/auth.models.ts:1-4 | a string names a role exactly when it is one of the enumeration's values `admin` and `user` |
| `Shared.RoleValueRoundTrip` | client/src/app/models/auth.models.ts:1-4 | parsing a role's value gives the role back, and every parsed string is its role's value |
| `AuthService.WithoutPasswordLosesOnlyPassword` | server/src/auth/auth.service.ts:25-26 | the stripped account keeps every field but the password, and putting the hash back restores the account |
| `AuthService.ValidateUser` | server/src/auth/auth.service.ts:14-29 | non-null exactly when the email is found, the account is active and the password checks; the result is the account minus its hash |
| `AuthService.LoginUnknownEmail` | server/src/auth/auth.service.ts:31-41 | an unknown email fails with "Invalid credentials" |
| `AuthService.LoginInactiveAccount` | server/src/auth/auth.service.ts:35-39 | a stored inactive account fails with the deactivated message whatever the password |
| `AuthService.LoginWrongPassword` | server/src/auth/auth.service.ts:32-41 | an active account with a wrong password fails with "Invalid credentials" |
| `AuthService.LoginOutcomes` | server/src/auth/auth.service.ts:31-42 | login succeeds exactly when validation does; the deactivated error happens exactly for stored inactive accounts; every failure is one of the two messages |
| `AuthService.LoginSuccessPayload` | server/src/auth/auth.service.ts:44-53 | on success the token is the signature of `sub` = account id, with the account's email, role and names and no timestamps |
| `AuthService.LoginSuccessUser` | server/src/auth/auth.service.ts:52-62 | on success the user returned has the account's id, email, names and role, `isActive` true and no timestamps |
| `AuthService.GetProfileProjects` | server/src/auth/auth.service.ts:65-74 | the profile keeps the six public fields and drops the timestamps; it is idempotent, and two users have equal profiles exactly when their six fields agree |
| `AuthService.LoginUserIsProfile` | server/src/auth/auth.service.ts:54-74 | the login response's user is the profile of the account |
| `JwtStrategy.ValidateProjectsClaims` | server/src/auth/jwt.strategy.ts:18-26 | `id` is `sub` and email, role and names are copied; validating rebuilt claims gives the identity back, and the claims are recovered from the identity and the timestamps |
| `JwtStrategy.ValidateIgnoresOnlyTimestamps` | server/src/auth/jwt.strategy.ts:18-26 | two payloads give the same identity exactly when they differ at most in `iat` and `exp` |
| `LoginFlow.StrategyIdentityOfLoginPayload` | server/src/auth/jwt.strategy.ts:18-26 | the identity derived from the claims signed at login is the account's id, email, role and names |
| `LoginFlow.LoginIdentifiesAccount` | server/src/auth/auth.service.ts:44-53 | after a successful login the signed claims identify the stored account |
| `LoginFlow.LoginResponseAuthenticatesClient` | client/src/app/features/auth/store/auth.reducer.ts:33-40 | the client store, given a successful login response, holds the token and the account's public view, is authenticated and stays consistent |
| `LoginFlow.SecretsAgreeOnlyWhenSet` | server/src/auth/jwt.strategy.ts:10 | the strategy's key equals the configured JWT secret exactly when `JWT_SECRET` is set, because the two fallbacks differ |
| `Config.Split` | server/src/config/app.config.ts:44-46 | at least one piece, no piece holds a comma, and joining the pieces gives the string back |
| `Config.SplitPiece` | server/src/config/app.config.ts:44-46 | a value without a comma gives a one-entry list |
| `Config.SplitJoin` | server/src/config/app.config.ts:44-46 | splitting a join of comma-free pieces gives the pieces back |
| `Config.ParseDecimalString` | server/src/config/app.config.ts:66 | parsing the decimal numeral of a number gives the number back |
| `Config.DigitsOfDefaultPorts` | server/src/config/app.config.ts:66-71 | the fallback numerals parse to 3000 and 5432 |
| `Config.AppendMissing` | server/src/config/app.config.ts:49-60 | the old list stays a prefix, appended entries are URLs that were missing, no more entries than URLs are added, and the result holds exactly the old entries and the URLs |
| `Config.AppendMissingCounts` | server/src/config/app.config.ts:55-59 | each missing URL occurs exactly once afterwards, and no other entry changes its number of occurrences |
| `Config.AppendMissingNoDuplicates` | server/src/config/app.config.ts:55-59 | the merge adds no duplicate to a list without one |
| `Config.AddProductionUrls` | server/src/config/app.config.ts:55-59 | the loop that pushes each URL it does not find computes the merge |
| `Config.EnvDefault` | server/src/config/app.config.ts:32 | `env` is `NODE_ENV` if the process started with it set, `development` otherwise |
| `Config.NodeEnvFromFileIgnored` | server/src/config/app.config.ts:32-42 | a `NODE_ENV` provided only by a `.env` file neither changes `env` nor adds the production URLs |
| `Config.InitialOriginsFromEnv` | server/src/config/app.config.ts:44-46 | the origins start as the local client alone without `CORS_ORIGINS`, and as its comma split otherwise |
| `Config.NonProductionOrigins` | server/src/config/app.config.ts:44-49 | outside production the origins are exactly the initial list |
| `Config.ProductionOrigins` | server/src/config/app.config.ts:49-60 | in production both URLs are present, the initial list is a prefix, only missing production URLs are appended, and no duplicate is added to a list without one |
| `Config.ProductionDefaultOrigins` | server/src/config/app.config.ts:44-60 | in production without `CORS_ORIGINS` the origins are the local client followed by both production URLs |
| `Config.JwtDefaults` | server/src/config/app.config.ts:76-79 | the JWT secret falls back to `fallback-secret-key` and the expiry to `24h` |
| `Config.OtherDefaults` | server/src/config/app.config.ts:64-89 | host `localhost`, port 3000, database host, port 5432, user, password and name, client URL and log level `info` fall back as written; the database URL is absent exactly when unset |
| `Config.PortFromEnv` | server/src/config/app.config.ts:66 | a port given as a decimal numeral is read as that number |
| `Config.EmptyEnvironment` | server/src/config/app.config.ts:64-89 | with no variables at all the configuration is exactly its defaults |
| `ClassValidator.FailingProperties` | server/src/main.ts:20-25 | the properties the validation pipe reports: none exactly when the body is valid, every failing property and only failing ones |
| `ClassValidator.EmailRule` | server/src/modules/users/user.dto.ts:22-23 | `@IsEmail()` accepts a present string that passes the address test, or a missing value when the property is optional |
| `ClassValidator.StringRule` | server/src/modules/users/user.dto.ts:147-148 | `@IsString()` accepts any present string, the empty one included |
| `ClassValidator.MinLengthRule` | server/src/modules/users/user.dto.ts:30-32 | `@IsString() @MinLength(n)` accepts a present string of at least `n` characters |
| `ClassValidator.RoleRule` | server/src/modules/users/user.dto.ts:58-60 | `@IsEnum(UserRole)` accepts exactly the strings that name a role |
| `ClassValidator.BoolRule` | server/src/modules/users/user.dto.ts:67-69 | `@IsBoolean()` accepts exactly a present boolean |
| `ModulesUsersDto.CreateUserDtoValid` | server/src/modules/users/user.dto.ts:17-70 | valid exactly with an email address, names of at least 2 characters, a password of at least 6, and `role`/`isActive` missing or a role and a boolean |
| `ModulesUsersDto.UpdateUserDtoValid` | server/src/modules/users/user.dto.ts:72-133 | valid exactly when each property is missing or obeys the create bound |
| `ModulesUsersDto.UpdateAcceptsEmptyAndCreate` | server/src/modules/users/user.dto.ts:72-133 | the empty update body is valid, and every valid create body is a valid update body |
| `ModulesUsersDto.LoginDtoValid` | server/src/modules/users/user.dto.ts:135-149 | valid exactly with an email address and any string password, the empty one included |
| `UsersUserDto.SameRulesAsModulesCopy` | server/src/users/user.dto.ts:16-76 | the second copy of the three classes declares the same rules as the first |
| `UsersUserDto.CreateUserDtoValid` | server/src/users/user.dto.ts:16-39 | valid exactly with an email address, names of at least 2 characters, a password of at least 6, and optional role and flag |
| `UsersUserDto.UpdateUserDtoValid` | server/src/users/user.dto.ts:41-68 | every property optional with the create bounds when present; the empty body is valid |
| `UsersUserDto.LoginDtoValid` | server/src/users/user.dto.ts:70-76 | valid exactly with an email address and any string password |
| `CreateUserDtoRules.CreateUserDtoValid` | server/src/modules/users/dto/create-user.dto.ts:12-63 | valid exactly with an email address, string names of any length, a password of at least 6, and optional role and flag |
| `CreateUserDtoRules.LooserThanModulesCopy` | server/src/modules/users/dto/create-user.dto.ts:24-32 | accepts every body the documented create DTO accepts, and also empty names, which that one rejects |
| `UpdateUserDtoRules.UpdateUserDtoValid` | server/src/modules/users/dto/update-user.dto.ts:12-69 | every property optional; present email an address, names any string, password at least 6, role a role, flag a boolean |
| `UpdateUserDtoRules.LooserThanModulesCopy` | server/src/modules/users/dto/update-user.dto.ts:27-38 | the empty body is valid; it accepts every body the documented update DTO accepts, and a one-letter name that one rejects |
| `AuthLoginDto.LoginDtoValid` | server/src/auth/dto/login.dto.ts:4-20 | valid exactly with an email address and a password of at least 6 characters, both required |
| `AuthLoginDto.StricterThanModulesCopy` | server/src/auth/dto/login.dto.ts:9-19 | every body valid here is a valid login body of the user DTO file; a password shorter than 6 characters is accepted there and rejected here |

## Left out

- The NgRx effects, the Angular components, the client HTTP service and both route guards. They dispatch actions, make HTTP calls, navigate and use `localStorage`. The model covers only the reducer those actions feed.
- `UsersService`, TypeORM and the database are not part of this model. The store is a fixed `map` from the email the lookup matches to the account. Email case folding and uniqueness belong to the database.
- `validatePassword` (bcrypt) and `jwtService.sign` are function parameters with no fixed meaning. Token signatures, verification, `iat`/`exp` and expiry checking are not modelled. `JwtStrategy.SecretOrKey` only picks the key.
- `@IsEmail()`'s address grammar is a parameter. `@MinLength` counts the characters of a Dafny string. It does not subtract the variation selectors that the underlying length check ignores.
- Only the `ValidationPipe` settings seen in the source are modelled. Properties without decorators are stripped, so the rules ignore them. No implicit type conversion is done.
- JSON numbers are integers. Arrays and nested objects are opaque tags, since no rule looks inside them.
- Config.ParseDecimal: models `parseInt` only on non-empty strings of decimal digits, giving `None` for anything else. JavaScript would give `NaN`, or parse a prefix, a sign, leading whitespace or a hexadecimal `0x` form; those cases and floating point are left out.
- The `.env` file loading (`dotenv` with `override: false`), `APP_ENV` and the file-name list, and the `console.log` of the origins are I/O. The model takes the environment before and after the loading as inputs.
- Concurrency and the order in which asynchronous responses arrive are not modelled. The reducer is applied to actions in the order given.
- The user store not being modified by login is not a separate lemma. In the model, login is a function of an immutable `map`.
- `getProfile` takes a `User`, which has no password field, and projects its six public fields, dropping the timestamps; `AuthService.GetProfile` does the same.
