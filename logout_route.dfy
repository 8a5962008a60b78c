/** app/api/auth/logout/route.ts */
module LogoutRoute {
  import opened Wrappers
  import opened Seqs
  import opened Users
  import opened Tokens
  import opened Http
  import opened Store
  import opened Middleware
  import opened Server

  const LoggedOut := "Sesión cerrada exitosamente"

  /** True when the `x-refresh-token` header is present and non-empty. */
  predicate Targeted(h: Headers)
  {
    h.refreshToken.Some? && h.refreshToken.value != ""
  }

  /** What the handler below does to the store (`before` to `after`) and what it answers. */
  ghost predicate Outcome(before: Tables, after: Tables, req: Request<()>, userId: UserId, resp: Response)
  {
    && (resp == Json(200, MessageBody(LoggedOut)))
    && (Targeted(req.headers) ==>
          after.refreshTokens == Filter(before.refreshTokens, (t: RefreshRow) => t.token != req.headers.refreshToken.value))
    && (!Targeted(req.headers) ==>
          after.refreshTokens == Filter(before.refreshTokens, (t: RefreshRow) => t.userId != userId))
    && (after.users == before.users && after.resetTokens == before.resetTokens && after.sessions == before.sessions)
    && (after.nextId == before.nextId)
  }

  /**
   * `logoutHandler` for the authenticated `userId`: with an `x-refresh-token` header only
   * the rows holding that string are deleted, whoever owns them; without it every row of
   * the caller is deleted and other users' rows are kept.
   */
  method Handler(db: Db, req: Request<()>, userId: UserId) returns (resp: Response)
    requires db.Valid()
    modifies db
    ensures db.Valid()
    ensures Outcome(old(db.Snapshot()), db.Snapshot(), req, userId, resp)
  {
    if Targeted(req.headers) {
      db.DeleteRefreshTokensWithToken(req.headers.refreshToken.value);
    } else {
      db.DeleteRefreshTokensOfUser(userId);
    }
    resp := Json(200, MessageBody(LoggedOut));
  }

  /** `POST = withCors(withAuth(logoutHandler))`: a bearer token is required, no limiter is consumed. */
  method Post(srv: Server, req: Request<()>, now: nat) returns (resp: Response)
    requires srv.Valid()
    modifies srv.db
    ensures srv.Valid()
    ensures unchanged(srv.general) && unchanged(srv.strict)
    ensures var gate := Authenticate(srv.crypto, srv.secret, req.headers.authorization, now);
            && (gate.Failure? ==> resp == WithCors(gate.error) && unchanged(srv.db))
            && (gate.Success? ==> resp == WithCors(Json(200, MessageBody(LoggedOut))))
            && (gate.Success? ==>
                  exists r :: resp == WithCors(r) && Outcome(old(srv.db.Snapshot()), srv.db.Snapshot(), req, gate.value, r))
  {
    var gate := Authenticate(srv.crypto, srv.secret, req.headers.authorization, now);
    if gate.Failure? {
      resp := gate.error;
    } else {
      resp := Handler(srv.db, req, gate.value);
    }
    ghost var handled := resp;
    resp := WithCors(resp);
  }

  /**
   * A logout without the header leaves the caller no refresh row, so no token refreshes a
   * session of theirs any more, while every other user's rows stay.
   */
  lemma LogoutAllScope(before: Tables, after: Tables, req: Request<()>, userId: UserId, resp: Response,
                       token: string, now: nat)
    requires Outcome(before, after, req, userId, resp) && !Targeted(req.headers)
    ensures forall t :: t in after.refreshTokens ==> t.userId != userId
    ensures forall t :: t in before.refreshTokens && t.userId != userId ==> t in after.refreshTokens
    ensures FindRefreshToken(after.refreshTokens, token, now).Some? ==>
              FindRefreshToken(after.refreshTokens, token, now).value.userId != userId
  {
  }

  /**
   * After a targeted logout no row holds the string, so a refresh with it is refused at any
   * time; rows holding other strings stay, whoever owns them.
   */
  lemma TargetedLogoutRetiresToken(before: Tables, after: Tables, req: Request<()>, userId: UserId, resp: Response,
                                   now: nat)
    requires Outcome(before, after, req, userId, resp) && Targeted(req.headers)
    ensures FindRefreshToken(after.refreshTokens, req.headers.refreshToken.value, now).None?
    ensures forall t :: t in before.refreshTokens && t.token != req.headers.refreshToken.value ==> t in after.refreshTokens
  {
    var token := req.headers.refreshToken.value;
    FilterNone(after.refreshTokens, (r: RefreshRow) => r.token == token && now < r.expiresAt);
  }
}
