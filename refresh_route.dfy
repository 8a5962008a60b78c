/** app/api/auth/refresh/route.ts */
module RefreshRoute {
  import opened Wrappers
  import opened Seqs
  import opened Users
  import opened Tokens
  import opened Http
  import opened Store
  import opened Middleware
  import opened Server

  /** The JSON body: `refreshToken`, `None` when absent or null. */
  datatype RefreshBody = RefreshBody(refreshToken: Option<string>)

  const TokenRequired := "Refresh token requerido"
  const StaleRefresh := "Refresh token inválido o expirado"

  /** The row a rotation rewrites: token and expiry replaced, matched by id only. */
  function Rotate(rows: seq<RefreshRow>, id: nat, token: string, expiresAt: nat): seq<RefreshRow>
  {
    SetWhere(rows, (t: RefreshRow) => t.id == id, (t: RefreshRow) => t.(token := token, expiresAt := expiresAt))
  }

  /** What the handler below does to the store (`before` to `after`) and what it answers. */
  ghost predicate Outcome(before: Tables, after: Tables, c: Crypto, secret: string, req: Request<RefreshBody>,
                          now: nat, resp: Response)
  {
    && (req.body.None? ==> resp == Json(500, ErrorBody(InternalError)) && after == before)
    && (req.body.Some? && (req.body.value.refreshToken.None? || req.body.value.refreshToken.value == "") ==>
          resp == Json(400, ErrorBody(TokenRequired)) && after == before)
    && (req.body.Some? && req.body.value.refreshToken.Some? && req.body.value.refreshToken.value != "" ==>
          var found := FindRefreshToken(before.refreshTokens, req.body.value.refreshToken.value, now);
          if found.None? then
            resp == Json(401, ErrorBody(StaleRefresh)) && after == before
          else
            var t := GenerateTokens(c, secret, found.value.userId, now);
            && resp == Json(200, TokensBody(t.accessToken, t.refreshToken, AccessTtl))
            && after.refreshTokens == Rotate(before.refreshTokens, found.value.id, t.refreshToken, now + RefreshRowTtlMs)
            && after.users == before.users && after.resetTokens == before.resetTokens && after.sessions == before.sessions
            && after.nextId == before.nextId)
  }

  /**
   * `refreshHandler`. An absent or empty token answers 400; a token with no single live row
   * answers 401; otherwise new tokens are issued for the row's user and the row is rewritten
   * in place, by id, with the new refresh token and a fresh 30-day expiry.
   */
  method Handler(db: Db, c: Crypto, secret: string, req: Request<RefreshBody>, now: nat) returns (resp: Response)
    requires db.Valid()
    modifies db
    ensures db.Valid()
    ensures Outcome(old(db.Snapshot()), db.Snapshot(), c, secret, req, now, resp)
  {
    if req.body.None? {
      return Json(500, ErrorBody(InternalError));
    }
    var presented := req.body.value.refreshToken;
    if presented.None? || presented.value == "" {
      return Json(400, ErrorBody(TokenRequired));
    }
    var found := FindRefreshToken(db.refreshTokens, presented.value, now);
    if found.None? {
      return Json(401, ErrorBody(StaleRefresh));
    }
    var t := GenerateTokens(c, secret, found.value.userId, now);
    db.RotateRefreshToken(found.value.id, t.refreshToken, now + RefreshRowTtlMs);
    resp := Json(200, TokensBody(t.accessToken, t.refreshToken, AccessTtl));
  }

  /** `POST = withCors(withRateLimit(refreshHandler))`: the general limiter. */
  method Post(srv: Server, req: Request<RefreshBody>, now: nat) returns (resp: Response)
    requires srv.Valid()
    modifies srv.db, srv.general
    ensures srv.Valid()
    ensures srv.general.windows == Step(old(srv.general.windows), ClientKey(req.ip), now, srv.general.durationMs)
    ensures !Allowed(srv.general.windows, ClientKey(req.ip), srv.general.points) ==>
              resp == WithCors(RateLimited) && unchanged(srv.db)
    ensures Allowed(srv.general.windows, ClientKey(req.ip), srv.general.points) ==> resp.status != 429
    ensures forall h :: h in CorsHeaders ==> h in resp.headers
    ensures Allowed(srv.general.windows, ClientKey(req.ip), srv.general.points) ==>
              exists r :: resp == WithCors(r)
                && Outcome(old(srv.db.Snapshot()), srv.db.Snapshot(), srv.crypto, srv.secret, req, now, r)
  {
    var allowed := srv.general.Consume(ClientKey(req.ip), now);
    if allowed {
      assert srv.db.Snapshot() == old(srv.db.Snapshot());
      resp := Handler(srv.db, srv.crypto, srv.secret, req, now);
      OutcomeStatus(old(srv.db.Snapshot()), srv.db.Snapshot(), srv.crypto, srv.secret, req, now, resp);
    } else {
      resp := RateLimited;
    }
    ghost var handled := resp;
    resp := WithCors(resp);
  }

  /** The handler answers 200, 400, 401 or 500, never the limiter's 429. */
  lemma OutcomeStatus(before: Tables, after: Tables, c: Crypto, secret: string, req: Request<RefreshBody>, now: nat, resp: Response)
    requires Outcome(before, after, c, secret, req, now, resp)
    ensures resp.status in {200, 400, 401, 500}
  {
  }

  /**
   * Once a row is rotated to a different string, the string it held is refused from then
   * on: every other row holding it had already expired when the lookup matched just one.
   */
  lemma RotationRetiresToken(rows: seq<RefreshRow>, presented: string, now: nat, later: nat, rotated: string, expiresAt: nat)
    requires FindRefreshToken(rows, presented, now).Some?
    requires rotated != presented && now <= later
    ensures FindRefreshToken(Rotate(rows, FindRefreshToken(rows, presented, now).value.id, rotated, expiresAt), presented, later).None?
  {
    var row := FindRefreshToken(rows, presented, now).value;
    var after := Rotate(rows, row.id, rotated, expiresAt);
    var live := (t: RefreshRow) => t.token == presented && later < t.expiresAt;
    forall x | x in after ensures !live(x) {
      var i :| 0 <= i < |after| && after[i] == x;
      assert rows[i] in rows;
    }
    FilterNone(after, live);
  }

  /**
   * Signing is deterministic with one-second `iat`: a token rotated within the second it was
   * issued comes back as the same string, and that string stays valid.
   */
  lemma SameSecondRotationKeepsToken(c: Crypto, secret: string, userId: UserId, issued: nat, now: nat)
    requires Sound(c) && Seconds(issued) == Seconds(now)
    ensures GenerateTokens(c, secret, userId, now).refreshToken == GenerateTokens(c, secret, userId, issued).refreshToken
  {
    RefreshTokenSameSecond(c, secret, userId, issued, now);
  }

  /** A rotation one second or more after issuance yields a different string, so the old one is retired. */
  lemma LaterRotationChangesToken(c: Crypto, secret: string, userId: UserId, issued: nat, now: nat)
    requires Sound(c) && Seconds(issued) < Seconds(now)
    ensures GenerateTokens(c, secret, userId, now).refreshToken != GenerateTokens(c, secret, userId, issued).refreshToken
  {
    RefreshTokenSameSecond(c, secret, userId, issued, now);
  }
}
