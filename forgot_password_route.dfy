/** app/api/auth/forgot-password/route.ts */
module ForgotPasswordRoute {
  import opened Wrappers
  import opened Users
  import opened Validation
  import opened Tokens
  import opened Http
  import opened Store
  import opened Middleware
  import opened Server

  const ResetRequested := "Si el email existe, recibirás un enlace de recuperación"
  const InvalidEmail := "Email inválido"

  /** What the handler below does to the store (`before` to `after`) and what it answers. */
  ghost predicate Outcome(before: Tables, after: Tables, req: Request<ForgotPasswordBody>, now: nat,
                          random: seq<Byte>, mailFails: bool, resp: Response)
  {
    && (req.body.None? ==> resp == Json(500, ErrorBody(InternalError)) && after == before)
    && (req.body.Some? && !ForgotPasswordSchema(req.body.value) ==> resp == Json(400, ErrorBody(InvalidEmail)) && after == before)
    && (req.body.Some? && ForgotPasswordSchema(req.body.value) ==>
          var found := FindUserByEmail(before.users, req.body.value.email.value);
          if found.None? then
            resp == Json(200, MessageBody(ResetRequested)) && after == before
          else
            && after.resetTokens == before.resetTokens + [ResetRow(before.nextId, found.value.id, Hex(random), now + ResetTtlMs, false)]
            && after.users == before.users && after.refreshTokens == before.refreshTokens && after.sessions == before.sessions
            && after.nextId == before.nextId + 1
            && resp == (if mailFails then Json(500, ErrorBody(InternalError)) else Json(200, MessageBody(ResetRequested))))
  }

  /**
   * `forgotPasswordHandler`. An unknown email answers exactly as a known one does and writes
   * nothing. For a known user one unused reset row is stored holding the hex form of the 32
   * random bytes and expiring one hour from now; the row stays even when the reset e-mail
   * then fails and the answer is 500.
   */
  method Handler(db: Db, req: Request<ForgotPasswordBody>, now: nat, random: seq<Byte>, mailFails: bool) returns (resp: Response)
    requires db.Valid() && |random| == 32
    modifies db
    ensures db.Valid()
    ensures Outcome(old(db.Snapshot()), db.Snapshot(), req, now, random, mailFails, resp)
  {
    if req.body.None? {
      return Json(500, ErrorBody(InternalError));
    }
    var b := req.body.value;
    if !ForgotPasswordSchema(b) {
      return Json(400, ErrorBody(InvalidEmail));
    }
    var found := FindUserByEmail(db.users, b.email.value);
    if found.None? {
      return Json(200, MessageBody(ResetRequested));
    }
    var token := Hex(random);
    db.InsertResetToken(found.value.id, token, now + ResetTtlMs);
    if mailFails {
      return Json(500, ErrorBody(InternalError));
    }
    resp := Json(200, MessageBody(ResetRequested));
  }

  /** `POST = withCors(withRateLimit(forgotPasswordHandler, true))`: the auth limiter. */
  method Post(srv: Server, req: Request<ForgotPasswordBody>, now: nat, random: seq<Byte>, mailFails: bool) returns (resp: Response)
    requires srv.Valid() && |random| == 32
    modifies srv.db, srv.strict
    ensures srv.Valid()
    ensures srv.strict.windows == Step(old(srv.strict.windows), ClientKey(req.ip), now, srv.strict.durationMs)
    ensures !Allowed(srv.strict.windows, ClientKey(req.ip), srv.strict.points) ==>
              resp == WithCors(RateLimited) && unchanged(srv.db)
    ensures Allowed(srv.strict.windows, ClientKey(req.ip), srv.strict.points) ==> resp.status != 429
    ensures forall h :: h in CorsHeaders ==> h in resp.headers
    ensures Allowed(srv.strict.windows, ClientKey(req.ip), srv.strict.points) ==>
              exists r :: resp == WithCors(r)
                && Outcome(old(srv.db.Snapshot()), srv.db.Snapshot(), req, now, random, mailFails, r)
  {
    var allowed := srv.strict.Consume(ClientKey(req.ip), now);
    if allowed {
      assert srv.db.Snapshot() == old(srv.db.Snapshot());
      resp := Handler(srv.db, req, now, random, mailFails);
    } else {
      resp := RateLimited;
    }
    ghost var handled := resp;
    resp := WithCors(resp);
  }
}
