/** The bearer-token strategy: once the token library has verified a
    token, `validate` projects its claims onto the request identity. */
module JwtStrategy {
  import opened Wrappers
  import opened Shared
  import Env

  /** The identity attached to an authenticated request. */
  datatype RequestUser = RequestUser(
    id: int,
    email: string,
    role: UserRole,
    firstName: string,
    lastName: string)

  /** `validate(payload)`. */
  function Validate(payload: JwtPayload): RequestUser {
    RequestUser(payload.sub, payload.email, payload.role, payload.firstName, payload.lastName)
  }

  /** Rebuilds the claims of a request identity with the given timestamps:
      the inverse of `Validate`. */
  function ToPayload(u: RequestUser, iat: Option<int>, exp: Option<int>): JwtPayload {
    JwtPayload(u.email, u.id, u.role, u.firstName, u.lastName, iat, exp)
  }

  /** `Validate` copies `sub` to `id` and the other claims unchanged, and
      loses exactly the timestamps: it undoes `ToPayload`, and together
      with the timestamps it can be undone. */
  lemma ValidateProjectsClaims(p: JwtPayload, u: RequestUser, iat: Option<int>, exp: Option<int>)
    ensures var r := Validate(p);
      r.id == p.sub && r.email == p.email && r.role == p.role
      && r.firstName == p.firstName && r.lastName == p.lastName
    ensures Validate(ToPayload(u, iat, exp)) == u
    ensures ToPayload(Validate(p), p.iat, p.exp) == p
  {
  }

  /** Two payloads give the same identity exactly when they differ at
      most in `iat` and `exp`. */
  lemma ValidateIgnoresOnlyTimestamps(p: JwtPayload, q: JwtPayload)
    ensures Validate(p) == Validate(q) <==> p.(iat := None, exp := None) == q.(iat := None, exp := None)
  {
  }

  /** The key the strategy verifies with: `JWT_SECRET` from the
      configuration service, or a built-in fallback. */
  function SecretOrKey(env: Env.Environment): string {
    Env.Or(env, "JWT_SECRET", "your-secret-key")
  }
}
