/** app/api/auth/account/route.ts */
module AccountRoute {
  import opened Wrappers
  import opened Seqs
  import opened Users
  import opened Tokens
  import opened Http
  import opened Store
  import opened Middleware
  import opened Server

  const AccountDeleted := "Cuenta eliminada exitosamente"

  /** What the handler below does to the store (`before` to `after`) and what it answers. */
  ghost predicate Outcome(before: Tables, after: Tables, userId: UserId, resp: Response)
  {
    && (after.refreshTokens == Filter(before.refreshTokens, (t: RefreshRow) => t.userId != userId))
    && (after.resetTokens == Filter(before.resetTokens, (t: ResetRow) => t.userId != userId))
    && (after.sessions == Filter(before.sessions, (s: SessionRow) => s.userId != userId))
    && (after.users == Filter(before.users, (u: UserRow) => u.id != userId))
    && (after.nextId == before.nextId)
    && (resp == Json(200, MessageBody(AccountDeleted)))
  }

  /**
   * `deleteAccountHandler` for the authenticated `userId`: the caller's refresh, reset and
   * session rows go first, then the user row; no other user's rows are touched.
   */
  method Handler(db: Db, userId: UserId) returns (resp: Response)
    requires db.Valid()
    modifies db
    ensures db.Valid()
    ensures Outcome(old(db.Snapshot()), db.Snapshot(), userId, resp)
  {
    db.DeleteRefreshTokensOfUser(userId);
    db.DeleteResetTokensOfUser(userId);
    db.DeleteSessionsOfUser(userId);
    db.DeleteUser(userId);
    resp := Json(200, MessageBody(AccountDeleted));
  }

  /** `DELETE = withCors(withAuth(deleteAccountHandler))`: a bearer token is required, no limiter is consumed. */
  method Delete(srv: Server, req: Request<()>, now: nat) returns (resp: Response)
    requires srv.Valid()
    modifies srv.db
    ensures srv.Valid()
    ensures unchanged(srv.general) && unchanged(srv.strict)
    ensures var gate := Authenticate(srv.crypto, srv.secret, req.headers.authorization, now);
            && (gate.Failure? ==> resp == WithCors(gate.error) && unchanged(srv.db))
            && (gate.Success? ==> resp == WithCors(Json(200, MessageBody(AccountDeleted)))
                                  && FindUserById(srv.db.users, gate.value).None?)
            && (gate.Success? ==>
                  exists r :: resp == WithCors(r) && Outcome(old(srv.db.Snapshot()), srv.db.Snapshot(), gate.value, r))
  {
    var gate := Authenticate(srv.crypto, srv.secret, req.headers.authorization, now);
    if gate.Failure? {
      resp := gate.error;
    } else {
      resp := Handler(srv.db, gate.value);
      FindUserByIdMisses(srv.db.users, gate.value);
    }
    ghost var handled := resp;
    resp := WithCors(resp);
  }
}
