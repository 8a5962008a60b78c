/** app/api/auth/profile/route.ts */
module ProfileRoute {
  import opened Wrappers
  import opened Seqs
  import opened Users
  import opened Validation
  import opened Tokens
  import opened Http
  import opened Store
  import opened Middleware
  import opened Server

  /** What the handler below does to the store (`before` to `after`) and what it answers. */
  ghost predicate Outcome(before: Tables, after: Tables, req: Request<ProfileBody>, userId: UserId, resp: Response)
  {
    && (req.body.None? ==> resp == Json(500, ErrorBody(InternalError)) && after == before)
    && (req.body.Some? && !UpdateProfileSchema(req.body.value) ==> resp == Json(400, ErrorBody(InvalidData)) && after == before)
    && (req.body.Some? && UpdateProfileSchema(req.body.value) ==>
          && after.users == SetWhere(before.users, (u: UserRow) => u.id == userId, (u: UserRow) => ApplyProfile(u, req.body.value))
          && after.refreshTokens == before.refreshTokens && after.resetTokens == before.resetTokens
          && after.sessions == before.sessions && after.nextId == before.nextId
          && ((forall u :: u in before.users ==> u.id != userId) ==> resp == Json(500, ErrorBody(InternalError)))
          && (forall u :: u in before.users && u.id == userId ==>
                resp == Json(200, UserBody(ToUser(ApplyProfile(u, req.body.value))))))
  }

  /**
   * `updateProfileHandler` for the authenticated `userId`: a body that passes the profile
   * schema is applied to the caller's row only; the updated user comes back, or 500 when the
   * caller's row is gone.
   */
  method Handler(db: Db, req: Request<ProfileBody>, userId: UserId) returns (resp: Response)
    requires db.Valid()
    modifies db
    ensures db.Valid()
    ensures Outcome(old(db.Snapshot()), db.Snapshot(), req, userId, resp)
  {
    if req.body.None? {
      return Json(500, ErrorBody(InternalError));
    }
    var b := req.body.value;
    if !UpdateProfileSchema(b) {
      return Json(400, ErrorBody(InvalidData));
    }
    var updated := db.UpdateUserProfile(userId, b);
    if updated.Failure? {
      return Json(500, ErrorBody(InternalError));
    }
    resp := Json(200, UserBody(updated.value));
    forall u | u in old(db.users) && u.id == userId ensures resp == Json(200, UserBody(ToUser(ApplyProfile(u, b)))) {
      var v :| v in old(db.users) && v.id == userId && updated.value == ToUser(ApplyProfile(v, b));
      SameIdSameRow(old(db.users), u, v);
    }
  }

  /** `PUT = withCors(withAuth(updateProfileHandler))`: a bearer token is required, no limiter is consumed. */
  method Put(srv: Server, req: Request<ProfileBody>, now: nat) returns (resp: Response)
    requires srv.Valid()
    modifies srv.db
    ensures srv.Valid()
    ensures unchanged(srv.general) && unchanged(srv.strict)
    ensures var gate := Authenticate(srv.crypto, srv.secret, req.headers.authorization, now);
            && (gate.Failure? ==> resp == WithCors(gate.error) && unchanged(srv.db))
            && (gate.Success? ==> forall u :: u in old(srv.db.users) && u.id != gate.value ==> u in srv.db.users)
            && (gate.Success? ==>
                  exists r :: resp == WithCors(r) && Outcome(old(srv.db.Snapshot()), srv.db.Snapshot(), req, gate.value, r))
    ensures forall h :: h in CorsHeaders ==> h in resp.headers
  {
    var gate := Authenticate(srv.crypto, srv.secret, req.headers.authorization, now);
    if gate.Failure? {
      resp := gate.error;
    } else {
      ghost var before := srv.db.users;
      resp := Handler(srv.db, req, gate.value);
      forall u | u in before && u.id != gate.value ensures u in srv.db.users {
        var i :| 0 <= i < |before| && before[i] == u;
        assert srv.db.users[i] == u;
      }
    }
    ghost var handled := resp;
    resp := WithCors(resp);
  }
}
