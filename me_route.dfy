/** app/api/auth/me/route.ts */
module MeRoute {
  import opened Wrappers
  import opened Users
  import opened Tokens
  import opened Http
  import opened Store
  import opened Middleware
  import opened Server

  const UserNotFound := "Usuario no encontrado"

  /** What `meHandler` answers for `userId` over the `users` table: the user without its hash, or 404. */
  ghost predicate Outcome(users: seq<UserRow>, userId: UserId, resp: Response)
  {
    && ((forall u :: u in users ==> u.id != userId) ==> resp == Json(404, ErrorBody(UserNotFound)))
    && (forall u :: u in users && u.id == userId ==> resp == Json(200, UserBody(ToUser(u))))
  }

  /** `meHandler` for the authenticated `userId`. */
  method Handler(db: Db, userId: UserId) returns (resp: Response)
    requires db.Valid()
    ensures Outcome(db.users, userId, resp)
  {
    var user := FindUserById(db.users, userId);
    FindUserByIdMisses(db.users, userId);
    if user.None? {
      return Json(404, ErrorBody(UserNotFound));
    }
    resp := Json(200, UserBody(user.value));
    forall u | u in db.users && u.id == userId ensures resp == Json(200, UserBody(ToUser(u))) {
      var v :| v in db.users && v.id == userId && user.value == ToUser(v);
      SameIdSameRow(db.users, u, v);
    }
  }

  /** `GET = withCors(withAuth(meHandler))`: a bearer token is required, nothing is written. */
  method Get(srv: Server, req: Request<()>, now: nat) returns (resp: Response)
    requires srv.Valid()
    ensures var gate := Authenticate(srv.crypto, srv.secret, req.headers.authorization, now);
            && (gate.Failure? ==> resp == WithCors(gate.error))
            && (gate.Success? ==> exists r :: resp == WithCors(r) && Outcome(srv.db.users, gate.value, r))
            && (gate.Success? ==> resp.status == 200 || resp.status == 404)
    ensures forall h :: h in CorsHeaders ==> h in resp.headers
  {
    var gate := Authenticate(srv.crypto, srv.secret, req.headers.authorization, now);
    if gate.Failure? {
      resp := gate.error;
    } else {
      resp := Handler(srv.db, gate.value);
    }
    ghost var handled := resp;
    resp := WithCors(resp);
  }
}
