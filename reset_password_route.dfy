/** app/api/auth/reset-password/route.ts */
module ResetPasswordRoute {
  import opened Wrappers
  import opened Seqs
  import opened Users
  import opened Validation
  import opened Tokens
  import opened Http
  import opened Store
  import opened Middleware
  import opened Server

  const BadResetToken := "Token inválido o expirado"
  const PasswordUpdated := "Contraseña actualizada exitosamente"

  /** What the handler below does to the store (`before` to `after`) and what it answers. */
  ghost predicate Outcome(before: Tables, after: Tables, c: Crypto, req: Request<ResetPasswordBody>, now: nat,
                          salt: nat, updateFails: bool, resp: Response)
  {
    && (req.body.None? ==> resp == Json(500, ErrorBody(InternalError)) && after == before)
    && (req.body.Some? && !ResetPasswordSchema(req.body.value) ==> resp == Json(400, ErrorBody(InvalidData)) && after == before)
    && (req.body.Some? && ResetPasswordSchema(req.body.value) ==>
          var b := req.body.value;
          var found := FindResetToken(before.resetTokens, b.token.value, now);
          if found.None? then
            resp == Json(400, ErrorBody(BadResetToken)) && after == before
          else if updateFails then
            resp == Json(500, ErrorBody(InternalError)) && after == before
          else
            var row := found.value;
            && after.users == SetWhere(before.users, (u: UserRow) => u.id == row.userId,
                                    (u: UserRow) => u.(passwordHash := c.hash(b.password.value, salt)))
            && after.resetTokens == SetWhere(before.resetTokens, (t: ResetRow) => t.id == row.id, (t: ResetRow) => t.(used := true))
            && after.refreshTokens == Filter(before.refreshTokens, (t: RefreshRow) => t.userId != row.userId)
            && after.sessions == before.sessions && after.nextId == before.nextId
            && resp == Json(200, MessageBody(PasswordUpdated)))
  }

  /**
   * `resetPasswordHandler`. The token must match exactly one unused row whose expiry is
   * ahead; no match, a used row and an expired row all answer the same 400. On a match the
   * new hash is written first (`updateFails` is the store reporting an error there, which
   * answers 500 and writes nothing), then the row is marked used and every refresh row of
   * the user is deleted.
   */
  method Handler(db: Db, c: Crypto, req: Request<ResetPasswordBody>, now: nat, salt: nat, updateFails: bool) returns (resp: Response)
    requires db.Valid()
    modifies db
    ensures db.Valid()
    ensures Outcome(old(db.Snapshot()), db.Snapshot(), c, req, now, salt, updateFails, resp)
  {
    if req.body.None? {
      return Json(500, ErrorBody(InternalError));
    }
    var b := req.body.value;
    if !ResetPasswordSchema(b) {
      return Json(400, ErrorBody(InvalidData));
    }
    var found := FindResetToken(db.resetTokens, b.token.value, now);
    if found.None? {
      return Json(400, ErrorBody(BadResetToken));
    }
    var row := found.value;
    var hashed := c.hash(b.password.value, salt);
    if updateFails {
      return Json(500, ErrorBody(InternalError));
    }
    db.SetPasswordHash(row.userId, hashed);
    db.MarkResetTokenUsed(row.id);
    db.DeleteRefreshTokensOfUser(row.userId);
    resp := Json(200, MessageBody(PasswordUpdated));
  }

  /** `POST = withCors(withRateLimit(resetPasswordHandler, true))`: the auth limiter. */
  method Post(srv: Server, req: Request<ResetPasswordBody>, now: nat, salt: nat, updateFails: bool) returns (resp: Response)
    requires srv.Valid()
    modifies srv.db, srv.strict
    ensures srv.Valid()
    ensures srv.strict.windows == Step(old(srv.strict.windows), ClientKey(req.ip), now, srv.strict.durationMs)
    ensures !Allowed(srv.strict.windows, ClientKey(req.ip), srv.strict.points) ==>
              resp == WithCors(RateLimited) && unchanged(srv.db)
    ensures Allowed(srv.strict.windows, ClientKey(req.ip), srv.strict.points) ==> resp.status != 429
    ensures forall h :: h in CorsHeaders ==> h in resp.headers
    ensures Allowed(srv.strict.windows, ClientKey(req.ip), srv.strict.points) ==>
              exists r :: resp == WithCors(r)
                && Outcome(old(srv.db.Snapshot()), srv.db.Snapshot(), srv.crypto, req, now, salt, updateFails, r)
  {
    var allowed := srv.strict.Consume(ClientKey(req.ip), now);
    if allowed {
      assert srv.db.Snapshot() == old(srv.db.Snapshot());
      resp := Handler(srv.db, srv.crypto, req, now, salt, updateFails);
    } else {
      resp := RateLimited;
    }
    ghost var handled := resp;
    resp := WithCors(resp);
  }

  /**
   * A reset token is single-use: after the row it matched is marked used no row answers to
   * it, now or later, because any other row holding it was already used or expired.
   */
  lemma ResetTokenSingleUse(rows: seq<ResetRow>, token: string, row: ResetRow, now: nat, later: nat)
    requires FindResetToken(rows, token, now) == Some(row)
    requires now <= later
    ensures FindResetToken(SetWhere(rows, (t: ResetRow) => t.id == row.id, (t: ResetRow) => t.(used := true)), token, later).None?
  {
    var after := SetWhere(rows, (t: ResetRow) => t.id == row.id, (t: ResetRow) => t.(used := true));
    var usable := (t: ResetRow) => t.token == token && !t.used && later < t.expiresAt;
    forall x | x in after ensures !usable(x) {
      var i :| 0 <= i < |after| && after[i] == x;
      assert rows[i] in rows;
    }
    FilterNone(after, usable);
  }

  /**
   * A reset that answers 200 consumed a usable token: the owner's stored hash is the new
   * password's, the token is refused from then on, and the owner holds no refresh row, so
   * every session of theirs must log in again.
   */
  lemma ResetRevokesSessions(before: Tables, after: Tables, c: Crypto, req: Request<ResetPasswordBody>, now: nat,
                             salt: nat, updateFails: bool, resp: Response, later: nat)
    requires Outcome(before, after, c, req, now, salt, updateFails, resp) && resp.status == 200
    requires now <= later
    ensures req.body.Some? && ResetPasswordSchema(req.body.value) && !updateFails
    ensures var found := FindResetToken(before.resetTokens, req.body.value.token.value, now);
            && found.Some?
            && (forall t :: t in after.refreshTokens ==> t.userId != found.value.userId)
            && (forall u :: u in after.users && u.id == found.value.userId ==>
                  u.passwordHash == c.hash(req.body.value.password.value, salt))
            && FindResetToken(after.resetTokens, req.body.value.token.value, later).None?
  {
    var b := req.body.value;
    var row := FindResetToken(before.resetTokens, b.token.value, now).value;
    ResetTokenSingleUse(before.resetTokens, b.token.value, row, now, later);
    forall u | u in after.users && u.id == row.userId ensures u.passwordHash == c.hash(b.password.value, salt) {
      var i :| 0 <= i < |after.users| && after.users[i] == u;
    }
  }
}
