/** app/api/auth/login/route.ts */
module LoginRoute {
  import opened Wrappers
  import opened Seqs
  import Text
  import opened Users
  import opened Validation
  import opened Tokens
  import opened Http
  import opened Store
  import opened Middleware
  import opened Server
  import RegisterRoute

  const InvalidCredentials := "Credenciales inválidas"

  /** The user a valid login body names, when the password it carries matches. */
  function LoginUser(users: seq<UserRow>, c: Crypto, b: LoginBody): (r: Option<UserRow>)
    requires LoginSchema(b)
    ensures r.Some? ==> r.value in users && r.value.email == Text.ToLower(b.email.value)
  {
    Credentials(FindUserByEmail(users, b.email.value), c, b.password.value)
  }

  /** The row found by email, kept only when the password matches its hash. */
  function Credentials(found: Option<UserRow>, c: Crypto, password: string): Option<UserRow>
  {
    if found.Some? && c.compare(password, found.value.passwordHash) then found else None
  }

  /**
   * What `loginHandler` does to the store (`before` to `after`) and answers. An unknown
   * email and a wrong password answer the same 401. On success one refresh row is stored
   * with the returned refresh token and a 30-day expiry, the user's last login is
   * stamped, and a session is upserted only when `deviceInfo` came.
   */
  ghost predicate Outcome(before: Tables, after: Tables, c: Crypto, secret: string, req: Request<LoginBody>, now: nat,
                          resp: Response)
  {
    && (req.body.None? ==> resp == Json(500, ErrorBody(InternalError)) && after == before)
    && (req.body.Some? && !LoginSchema(req.body.value) ==> resp == Json(400, ErrorBody(InvalidData)) && after == before)
    && (req.body.Some? && LoginSchema(req.body.value) && LoginUser(before.users, c, req.body.value).None? ==>
          resp == Json(401, ErrorBody(InvalidCredentials)) && after == before)
    && (req.body.Some? && LoginSchema(req.body.value) && LoginUser(before.users, c, req.body.value).Some? ==>
          var b := req.body.value;
          var u := LoginUser(before.users, c, b).value;
          var t := GenerateTokens(c, secret, u.id, now);
          && resp == Json(200, SessionBody(ToUser(u).(lastLoginAt := now), t.accessToken, t.refreshToken, AccessTtl))
          && after.refreshTokens == before.refreshTokens + [RefreshRow(before.nextId, u.id, t.refreshToken, now + RefreshRowTtlMs, b.deviceInfo.ToOption())]
          && after.users == SetWhere(before.users, (r: UserRow) => r.id == u.id, (r: UserRow) => r.(lastLoginAt := now))
          && after.resetTokens == before.resetTokens
          && (b.deviceInfo.Absent? ==> after.sessions == before.sessions && after.nextId == before.nextId + 1)
          && (b.deviceInfo.Given? ==>
                && after.sessions == UpsertSessions(before.sessions, before.nextId + 1, u.id, b.deviceInfo.value,
                                                    req.ip, req.headers.userAgent, now)
                && after.nextId == before.nextId + 1 + (if HasSession(before.sessions, u.id, b.deviceInfo.value.deviceId.value) then 0 else 1)))
  }

  /** `loginHandler` */
  method Handler(db: Db, c: Crypto, secret: string, req: Request<LoginBody>, now: nat) returns (resp: Response)
    requires db.Valid()
    modifies db
    ensures db.Valid()
    ensures Outcome(old(db.Snapshot()), db.Snapshot(), c, secret, req, now, resp)
  {
    if req.body.None? {
      return Json(500, ErrorBody(InternalError));
    }
    var b := req.body.value;
    if !LoginSchema(b) {
      return Json(400, ErrorBody(InvalidData));
    }
    var found := FindUserByEmail(db.users, b.email.value);
    if found.None? {
      return Json(401, ErrorBody(InvalidCredentials));
    }
    var u := found.value;
    if !c.compare(b.password.value, u.passwordHash) {
      return Json(401, ErrorBody(InvalidCredentials));
    }
    resp := OpenSession(db, c, secret, u, b.deviceInfo, req.ip, req.headers.userAgent, now);
  }

  /** The success path of `loginHandler` for the authenticated row `u`. */
  method OpenSession(db: Db, c: Crypto, secret: string, u: UserRow, device: Field<RawDeviceInfo>,
                     ip: Option<string>, userAgent: Option<string>, now: nat) returns (resp: Response)
    requires db.Valid() && DeviceInfoOk(device)
    modifies db
    ensures db.Valid()
    ensures var t := GenerateTokens(c, secret, u.id, now);
            && resp == Json(200, SessionBody(ToUser(u).(lastLoginAt := now), t.accessToken, t.refreshToken, AccessTtl))
            && db.refreshTokens == old(db.refreshTokens) + [RefreshRow(old(db.nextId), u.id, t.refreshToken, now + RefreshRowTtlMs, device.ToOption())]
            && db.users == SetWhere(old(db.users), (r: UserRow) => r.id == u.id, (r: UserRow) => r.(lastLoginAt := now))
            && db.resetTokens == old(db.resetTokens)
    ensures device.Absent? ==> db.sessions == old(db.sessions) && db.nextId == old(db.nextId) + 1
    ensures device.Given? ==>
              && db.sessions == UpsertSessions(old(db.sessions), old(db.nextId) + 1, u.id, device.value, ip, userAgent, now)
              && db.nextId == old(db.nextId) + 1 + (if HasSession(old(db.sessions), u.id, device.value.deviceId.value) then 0 else 1)
  {
    var t := GenerateTokens(c, secret, u.id, now);
    db.InsertRefreshToken(u.id, t.refreshToken, now + RefreshRowTtlMs, device.ToOption());
    db.UpdateUserLastLogin(u.id, now);
    if device.Given? {
      db.UpsertSession(u.id, device.value, ip, userAgent, now);
    }
    resp := Json(200, SessionBody(ToUser(u).(lastLoginAt := now), t.accessToken, t.refreshToken, AccessTtl));
  }

  /** `POST = withCors(withRateLimit(loginHandler, true))`: the auth limiter, no bearer check. */
  method Post(srv: Server, req: Request<LoginBody>, now: nat) returns (resp: Response)
    requires srv.Valid()
    modifies srv.db, srv.strict
    ensures srv.Valid()
    ensures srv.strict.windows == Step(old(srv.strict.windows), ClientKey(req.ip), now, srv.strict.durationMs)
    ensures !Allowed(srv.strict.windows, ClientKey(req.ip), srv.strict.points) ==>
              resp == WithCors(RateLimited) && unchanged(srv.db)
    ensures Allowed(srv.strict.windows, ClientKey(req.ip), srv.strict.points) ==>
              exists r :: resp == WithCors(r)
                && Outcome(old(srv.db.Snapshot()), srv.db.Snapshot(), srv.crypto, srv.secret, req, now, r)
    ensures Allowed(srv.strict.windows, ClientKey(req.ip), srv.strict.points) ==> resp.status != 429
    ensures forall h :: h in CorsHeaders ==> h in resp.headers
  {
    var allowed := srv.strict.Consume(ClientKey(req.ip), now);
    if allowed {
      assert srv.db.Snapshot() == old(srv.db.Snapshot());
      resp := Handler(srv.db, srv.crypto, srv.secret, req, now);
    } else {
      resp := RateLimited;
    }
    ghost var handled := resp;
    resp := WithCors(resp);
  }

  /** A password that does not match answers exactly as an unknown email does. */
  lemma NoAccountEnumeration(c: Crypto, known: UserRow, password: string)
    requires !c.compare(password, known.passwordHash)
    ensures Credentials(Some(known), c, password) == Credentials(None, c, password)
  {
  }

  /**
   * End to end: right after a registration succeeds (201), logging in with the email and
   * password it carried answers 200 with a session for the account just created. The
   * first table state is any the store can be in: unique users, ids below the counter.
   */
  lemma RegisteredUserLogsIn(c: Crypto, secret: string, t0: Tables, t1: Tables, t2: Tables,
                             reg: Request<RegisterBody>, now: nat, salt: nat, storeError: Option<string>,
                             created: Response, login: Request<LoginBody>, later: nat, resp: Response)
    requires Sound(c)
    requires UsersUnique(t0.users) && forall u :: u in t0.users ==> u.id < t0.nextId
    requires RegisterRoute.Outcome(t0, t1, c, secret, reg, now, salt, storeError, created) && created.status == 201
    requires reg.body.Some?
    requires login.body == Some(LoginBody(reg.body.value.email, reg.body.value.password, reg.body.value.platform,
                                           reg.body.value.deviceInfo))
    requires Outcome(t1, t2, c, secret, login, later, resp)
    ensures resp.status == 200
    ensures created.body.SessionBody? && resp.body.SessionBody? && resp.body.user.id == created.body.user.id
  {
    var b := reg.body.value;
    assert RegisterSchema(b) && !EmailInUse(t0.users, b.email.value) && storeError.None?;
    RegisterBodyPassesLogin(b);
    var row := NewUserRow(t0.nextId, b.email.value, c.hash(b.password.value, salt), b.firstName.value, b.lastName.value,
                          b.phone.ToOption(), now);
    assert t1.users == t0.users + [row];
    assert UsersUnique(t1.users) by {
      forall i, j | 0 <= i < j < |t1.users| ensures t1.users[i].id != t1.users[j].id && t1.users[i].email != t1.users[j].email {
        if j == |t0.users| {
          assert t1.users[i] in t0.users;
        } else {
          assert t1.users[i] == t0.users[i] && t1.users[j] == t0.users[j];
        }
      }
    }
    assert row in t1.users;
    FindUserByEmailMisses(t1.users, b.email.value);
    var found := FindUserByEmail(t1.users, b.email.value);
    assert found == Some(row);
    assert c.compare(b.password.value, c.hash(b.password.value, salt));
    assert LoginUser(t1.users, c, login.body.value) == Some(row);
  }
}
