/**
 * The process-wide state every route shares: the store, the two limiter instances of
 * lib/middleware.ts, the crypto primitives and `JWT_SECRET`.
 */
module Server {
  import opened Store
  import opened Middleware
  import opened Tokens

  /** The secret lib/auth.ts falls back to when the environment sets none. */
  const DefaultSecret := "your-super-secret-jwt-key"

  /** `process.env.JWT_SECRET || default`: an unset or empty variable selects the default. */
  function JwtSecret(env: string): (s: string)
    ensures s != ""
    ensures env != "" ==> s == env
  {
    if env != "" then env else DefaultSecret
  }

  class Server {
    const db: Db
    /** `rateLimiter`, used by the refresh route. */
    const general: RateLimiter
    /** `authRateLimiter`, used by login, register, forgot-password and reset-password. */
    const strict: RateLimiter
    const crypto: Crypto
    const secret: string

    ghost predicate Valid()
      reads this, db
    {
      db.Valid() && general != strict
    }

    constructor (crypto: Crypto, env: string)
      ensures Valid() && fresh(db) && fresh(general) && fresh(strict)
      ensures db.users == [] && db.refreshTokens == [] && db.resetTokens == [] && db.sessions == []
      ensures general.points == GeneralPoints && general.durationMs == GeneralDuration * 1000 && general.windows == map[]
      ensures strict.points == AuthPoints && strict.durationMs == AuthDuration * 1000 && strict.windows == map[]
      ensures this.crypto == crypto && secret == JwtSecret(env)
    {
      db := new Db();
      general := new RateLimiter(GeneralPoints, GeneralDuration);
      strict := new RateLimiter(AuthPoints, AuthDuration);
      this.crypto := crypto;
      secret := JwtSecret(env);
    }
  }
}
