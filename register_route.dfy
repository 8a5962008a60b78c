/** app/api/auth/register/route.ts */
module RegisterRoute {
  import opened Wrappers
  import opened Text
  import opened Users
  import opened Validation
  import opened Tokens
  import opened Http
  import opened Store
  import opened Middleware
  import opened Server

  /**
   * The status `registerHandler` gives a `createUser` failure: 409 with the message when it
   * mentions "ya está registrado", 500 otherwise.
   */
  function CreateFailure(message: string): (r: Response)
    ensures Contains(message, "ya está registrado") ==> r == Json(409, ErrorBody(message))
    ensures !Contains(message, "ya está registrado") ==> r == Json(500, ErrorBody(InternalError))
  {
    if Contains(message, "ya está registrado") then Json(409, ErrorBody(message)) else Json(500, ErrorBody(InternalError))
  }

  /** A duplicate email reaches the client as 409 with the store's message. */
  lemma DuplicateIsConflict()
    ensures CreateFailure(EmailTaken) == Json(409, ErrorBody(EmailTaken))
  {
    assert OccursAt(EmailTaken, "ya está registrado", 9);
  }

  /** What the handler below does to the store (`before` to `after`) and what it answers. */
  ghost predicate Outcome(before: Tables, after: Tables, c: Crypto, secret: string, req: Request<RegisterBody>,
                          now: nat, salt: nat, storeError: Option<string>, resp: Response)
  {
    && (req.body.None? ==> resp == Json(500, ErrorBody(InternalError)) && after == before)
    && (req.body.Some? && !RegisterSchema(req.body.value) ==> resp == Json(400, ErrorBody(InvalidData)) && after == before)
    && (req.body.Some? && RegisterSchema(req.body.value) && EmailInUse(before.users, req.body.value.email.value) ==>
          resp == Json(409, ErrorBody(EmailTaken)) && after == before)
    && (req.body.Some? && RegisterSchema(req.body.value) && !EmailInUse(before.users, req.body.value.email.value)
        && storeError.Some? ==>
          resp == CreateFailure(CreateUserFailed + storeError.value) && after == before)
    && (req.body.Some? && RegisterSchema(req.body.value) && !EmailInUse(before.users, req.body.value.email.value)
        && storeError.None? ==>
          var b := req.body.value;
          var row := NewUserRow(before.nextId, b.email.value, c.hash(b.password.value, salt),
                                b.firstName.value, b.lastName.value, b.phone.ToOption(), now);
          var t := GenerateTokens(c, secret, row.id, now);
          && resp == Json(201, SessionBody(ToUser(row), t.accessToken, t.refreshToken, AccessTtl))
          && after.users == before.users + [row]
          && after.refreshTokens == before.refreshTokens + [RefreshRow(before.nextId + 1, row.id, t.refreshToken, now + RefreshRowTtlMs, b.deviceInfo.ToOption())]
          && after.resetTokens == before.resetTokens
          && (b.deviceInfo.Absent? ==> after.sessions == before.sessions && after.nextId == before.nextId + 2)
          && (b.deviceInfo.Given? ==>
                && after.sessions == before.sessions + [SessionRow(before.nextId + 2, row.id, b.deviceInfo.value.deviceId.value,
                                                                 b.deviceInfo.value, req.ip, req.headers.userAgent, now)]
                && after.nextId == before.nextId + 3))
  }

  /**
   * `registerHandler`. `createUser` runs first, so a duplicate email answers 409 before any
   * token or session row is written. On success the new user gets one refresh row with a
   * 30-day expiry and, only when `deviceInfo` came, one session row. `welcomeMailFails`
   * is the outcome of the welcome e-mail, which the response does not depend on.
   */
  method Handler(db: Db, c: Crypto, secret: string, req: Request<RegisterBody>, now: nat, salt: nat,
                 storeError: Option<string>, welcomeMailFails: bool) returns (resp: Response)
    requires db.Valid()
    modifies db
    ensures db.Valid()
    ensures Outcome(old(db.Snapshot()), db.Snapshot(), c, secret, req, now, salt, storeError, resp)
  {
    if req.body.None? {
      return Json(500, ErrorBody(InternalError));
    }
    var b := req.body.value;
    if !RegisterSchema(b) {
      return Json(400, ErrorBody(InvalidData));
    }
    var created := db.CreateUser(c, salt, b.email.value, b.password.value, b.firstName.value, b.lastName.value,
                                 b.phone.ToOption(), now, storeError);
    if created.Failure? {
      if EmailInUse(old(db.users), b.email.value) {
        DuplicateIsConflict();
      }
      return CreateFailure(created.error);
    }
    resp := IssueFirstSession(db, c, secret, created.value, b.deviceInfo, req.ip, req.headers.userAgent, now);
  }

  /** The writes after `createUser` succeeded for `user`. */
  method IssueFirstSession(db: Db, c: Crypto, secret: string, user: User, device: Field<RawDeviceInfo>,
                           ip: Option<string>, userAgent: Option<string>, now: nat) returns (resp: Response)
    requires db.Valid() && DeviceInfoOk(device)
    modifies db
    ensures db.Valid()
    ensures var t := GenerateTokens(c, secret, user.id, now);
            && resp == Json(201, SessionBody(user, t.accessToken, t.refreshToken, AccessTtl))
            && db.users == old(db.users)
            && db.refreshTokens == old(db.refreshTokens) + [RefreshRow(old(db.nextId), user.id, t.refreshToken, now + RefreshRowTtlMs, device.ToOption())]
            && db.resetTokens == old(db.resetTokens)
    ensures device.Absent? ==> db.sessions == old(db.sessions) && db.nextId == old(db.nextId) + 1
    ensures device.Given? ==>
              && db.sessions == old(db.sessions) + [SessionRow(old(db.nextId) + 1, user.id, device.value.deviceId.value, device.value, ip, userAgent, now)]
              && db.nextId == old(db.nextId) + 2
  {
    var t := GenerateTokens(c, secret, user.id, now);
    db.InsertRefreshToken(user.id, t.refreshToken, now + RefreshRowTtlMs, device.ToOption());
    if device.Given? {
      db.InsertSession(user.id, device.value, ip, userAgent, now);
    }
    resp := Json(201, SessionBody(user, t.accessToken, t.refreshToken, AccessTtl));
  }

  /** `POST = withCors(withRateLimit(registerHandler, true))`: the auth limiter. */
  method Post(srv: Server, req: Request<RegisterBody>, now: nat, salt: nat, storeError: Option<string>,
              welcomeMailFails: bool) returns (resp: Response)
    requires srv.Valid()
    modifies srv.db, srv.strict
    ensures srv.Valid()
    ensures srv.strict.windows == Step(old(srv.strict.windows), ClientKey(req.ip), now, srv.strict.durationMs)
    ensures !Allowed(srv.strict.windows, ClientKey(req.ip), srv.strict.points) ==>
              resp == WithCors(RateLimited) && unchanged(srv.db)
    ensures Allowed(srv.strict.windows, ClientKey(req.ip), srv.strict.points) ==> resp.status != 429
    ensures forall h :: h in CorsHeaders ==> h in resp.headers
    ensures Allowed(srv.strict.windows, ClientKey(req.ip), srv.strict.points) ==>
              exists r :: resp == WithCors(r)
                && Outcome(old(srv.db.Snapshot()), srv.db.Snapshot(), srv.crypto, srv.secret, req, now, salt, storeError, r)
  {
    var allowed := srv.strict.Consume(ClientKey(req.ip), now);
    if allowed {
      assert srv.db.Snapshot() == old(srv.db.Snapshot());
      resp := Handler(srv.db, srv.crypto, srv.secret, req, now, salt, storeError, welcomeMailFails);
    } else {
      resp := RateLimited;
    }
    ghost var handled := resp;
    resp := WithCors(resp);
  }
}
