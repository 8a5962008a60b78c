/**
 * The request pipeline of lib/middleware.ts: a fixed-window rate limiter per client
 * key, the bearer-token gate and the CORS stamp.
 */
module Middleware {
  import opened Wrappers
  import opened Text
  import opened Users
  import opened Http
  import opened Tokens

  // ------------------------------------------------------------ rate limiting

  /** `rateLimiter`: 10 points per 60 seconds. */
  const GeneralPoints: nat := 10
  const GeneralDuration: nat := 60
  /** `authRateLimiter`: 5 points per 300 seconds. */
  const AuthPoints: nat := 5
  const AuthDuration: nat := 300

  /** The key both limiters use: the client address, or "anonymous" when there is none. */
  function ClientKey(ip: Option<string>): (k: string)
    ensures ip.Some? && ip.value != "" ==> k == ip.value
    ensures ip.None? || ip.value == "" ==> k == "anonymous"
  {
    if ip.Some? && ip.value != "" then ip.value else "anonymous"
  }

  /** One key's window: points consumed so far and the instant (ms) the window closes. */
  datatype Window = Window(consumed: nat, expiresAt: nat)

  /**
   * One `consume(key)` against the memory store: inside a live window (now < expiresAt)
   * the counter goes up by one, even when the request is then refused; otherwise a new
   * window of `durationMs` starts with one point consumed.
   */
  function Step(windows: map<string, Window>, key: string, now: nat, durationMs: nat): (r: map<string, Window>)
    ensures r.Keys == windows.Keys + {key}
    ensures forall k :: k in windows && k != key ==> r[k] == windows[k]
    ensures key in windows && now < windows[key].expiresAt ==> r[key].consumed == windows[key].consumed + 1
    ensures !(key in windows && now < windows[key].expiresAt) ==> r[key] == Window(1, now + durationMs)
  {
    if key in windows && now < windows[key].expiresAt then
      windows[key := Window(windows[key].consumed + 1, windows[key].expiresAt)]
    else
      windows[key := Window(1, now + durationMs)]
  }

  /** A request is let through when the points consumed in its window do not exceed the budget. */
  function Allowed(windows: map<string, Window>, key: string, points: nat): bool
  {
    key in windows && windows[key].consumed <= points
  }

  /** A `RateLimiterMemory` instance: its configuration and its per-key windows. */
  class RateLimiter {
    const points: nat
    const durationMs: nat
    var windows: map<string, Window>

    constructor (points: nat, durationSeconds: nat)
      ensures this.points == points && this.durationMs == durationSeconds * 1000
      ensures windows == map[]
    {
      this.points := points;
      this.durationMs := durationSeconds * 1000;
      windows := map[];
    }

    /** `consume(key)`: records the request and answers whether it is within the budget. */
    method Consume(key: string, now: nat) returns (allowed: bool)
      modifies this
      ensures windows == Step(old(windows), key, now, durationMs)
      ensures allowed == Allowed(windows, key, points)
    {
      windows := Step(windows, key, now, durationMs);
      allowed := windows[key].consumed <= points;
    }
  }

  /** A request to the limiter: its key and its arrival time. */
  datatype Hit = Hit(key: string, now: nat)

  /** The windows after a sequence of requests, replayed from `windows`. */
  function Replay(windows: map<string, Window>, hits: seq<Hit>, durationMs: nat): map<string, Window>
    decreases hits
  {
    if hits == [] then windows
    else Replay(Step(windows, hits[0].key, hits[0].now, durationMs), hits[1..], durationMs)
  }

  /** The requests carrying `key`. */
  function OnKey(hits: seq<Hit>, key: string): (r: seq<Hit>)
    ensures |r| <= |hits|
    ensures forall h :: h in r <==> h in hits && h.key == key
  {
    if hits == [] then []
    else (if hits[0].key == key then [hits[0]] else []) + OnKey(hits[1..], key)
  }

  function Restrict(windows: map<string, Window>, key: string): map<string, Window>
  {
    if key in windows then map[key := windows[key]] else map[]
  }

  /**
   * Counters are per key: a key's window after any interleaving of requests is the window
   * it would have if only its own requests had arrived.
   */
  lemma {:induction false} ReplayPerKey(windows: map<string, Window>, hits: seq<Hit>, durationMs: nat, key: string)
    ensures Restrict(Replay(windows, hits, durationMs), key)
            == Restrict(Replay(Restrict(windows, key), OnKey(hits, key), durationMs), key)
    decreases hits
  {
    if hits != [] {
      var h := hits[0];
      var next := Step(windows, h.key, h.now, durationMs);
      ReplayPerKey(next, hits[1..], durationMs, key);
      if h.key == key {
        assert OnKey(hits, key) == [h] + OnKey(hits[1..], key);
        assert Restrict(Step(Restrict(windows, key), h.key, h.now, durationMs), key) == Restrict(next, key);
        ReplayRestrictStart(Step(Restrict(windows, key), h.key, h.now, durationMs), next, OnKey(hits[1..], key), durationMs, key);
      } else {
        assert OnKey(hits, key) == OnKey(hits[1..], key);
        assert Restrict(next, key) == Restrict(windows, key);
      }
    }
  }

  /** Replaying one key's own requests depends only on that key's starting window. */
  lemma {:induction false} ReplayRestrictStart(a: map<string, Window>, b: map<string, Window>, hits: seq<Hit>, durationMs: nat, key: string)
    requires Restrict(a, key) == Restrict(b, key)
    requires forall h :: h in hits ==> h.key == key
    ensures Restrict(Replay(a, hits, durationMs), key) == Restrict(Replay(Restrict(b, key), hits, durationMs), key)
    decreases hits
  {
    assert Restrict(Restrict(b, key), key) == Restrict(b, key);
    if hits != [] {
      var h := hits[0];
      var a' := Step(a, h.key, h.now, durationMs);
      var b' := Step(Restrict(b, key), h.key, h.now, durationMs);
      assert Restrict(a', key) == Restrict(b', key);
      assert forall x :: x in hits[1..] ==> x in hits;
      ReplayRestrictStart(a', b', hits[1..], durationMs, key);
      assert Restrict(Restrict(b', key), key) == Restrict(b', key);
      assert Restrict(Replay(Restrict(b', key), hits[1..], durationMs), key) == Restrict(Replay(b', hits[1..], durationMs), key) by {
        ReplayRestrictStart(b', b', hits[1..], durationMs, key);
      }
    }
  }

  /** `n` requests on one key, all arriving before `deadline`. */
  predicate Burst(hits: seq<Hit>, key: string, deadline: nat)
  {
    forall k :: 0 <= k < |hits| ==> hits[k].key == key && hits[k].now < deadline
  }

  /**
   * Within one window the counter counts every request: from `n` points consumed, `|hits|`
   * more requests before the window closes leave `n + |hits|` consumed and the window as it was.
   */
  lemma {:induction false} BurstCountsFrom(windows: map<string, Window>, key: string, start: nat, hits: seq<Hit>, durationMs: nat, n: nat)
    requires key in windows && windows[key] == Window(n, start + durationMs)
    requires Burst(hits, key, start + durationMs)
    ensures var w := Replay(windows, hits, durationMs);
            key in w && w[key] == Window(n + |hits|, start + durationMs)
  {
    if hits != [] {
      assert hits[0].key == key && hits[0].now < start + durationMs;
      var next := Step(windows, key, hits[0].now, durationMs);
      assert Burst(hits[1..], key, start + durationMs) by {
        forall k | 0 <= k < |hits[1..]| ensures hits[1..][k].key == key && hits[1..][k].now < start + durationMs {
          assert hits[1..][k] == hits[k + 1];
        }
      }
      BurstCountsFrom(next, key, start, hits[1..], durationMs, n + 1);
    }
  }

  /**
   * Starting from a key with no live window, the request that opens it and the next
   * `points - 1` within the window pass, and the one after them is refused.
   */
  lemma ExhaustedWindowRejects(windows: map<string, Window>, first: Hit, hits: seq<Hit>, points: nat, durationMs: nat)
    requires !(first.key in windows && first.now < windows[first.key].expiresAt)
    requires Burst(hits, first.key, first.now + durationMs)
    ensures var w := Replay(Step(windows, first.key, first.now, durationMs), hits, durationMs);
            Allowed(w, first.key, points) <==> |hits| < points
  {
    BurstCountsFrom(Step(windows, first.key, first.now, durationMs), first.key, first.now, hits, durationMs, 1);
  }

  // ---------------------------------------------------------------- wrappers

  const TooManyRequests := "Too many requests"

  /** The response `withRateLimit` gives when `consume` refuses. */
  const RateLimited: Response := Json(429, ErrorBody(TooManyRequests))

  const AuthorizationRequired := "Token de autorización requerido"

  /** `withAuth`'s decision: the verified user id, or the 401 it answers with instead. */
  function Authenticate(c: Crypto, secret: string, authorization: Option<string>, now: nat): (r: Result<UserId, Response>)
    ensures authorization.None? || !StartsWith(authorization.value, "Bearer ") ==>
              r == Failure(Json(401, ErrorBody(AuthorizationRequired)))
    ensures authorization.Some? && StartsWith(authorization.value, "Bearer ") ==>
              var token := authorization.value[7..];
              match VerifyToken(c, secret, token, now)
              case Success(id) => r == Success(id)
              case Failure(_) => r == Failure(Json(401, ErrorBody(InvalidToken)))
  {
    if authorization.None? || !StartsWith(authorization.value, "Bearer ") then
      Failure(Json(401, ErrorBody(AuthorizationRequired)))
    else
      match VerifyToken(c, secret, authorization.value[7..], now)
      case Success(id) => Success(id)
      case Failure(_) => Failure(Json(401, ErrorBody(InvalidToken)))
  }

  /** The "Bearer " prefix and the token after it round-trip through the gate (RFC 6750 section 2.1). */
  lemma BearerRoundTrip(c: Crypto, secret: string, token: string, now: nat)
    ensures Authenticate(c, secret, Some("Bearer " + token), now)
            == (match VerifyToken(c, secret, token, now)
                case Success(id) => Success(id)
                case Failure(_) => Failure(Json(401, ErrorBody(InvalidToken))))
  {
    assert StartsWith("Bearer " + token, "Bearer ");
    assert ("Bearer " + token)[7..] == token;
  }

  /** An access token freshly issued to a user opens the gate for that user. */
  lemma IssuedTokenAuthenticates(c: Crypto, secret: string, userId: UserId, issued: nat, now: nat)
    requires Sound(c) && issued <= now < issued + (AccessTtl - 1) * 1000
    ensures Authenticate(c, secret, Some("Bearer " + GenerateTokens(c, secret, userId, issued).accessToken), now) == Success(userId)
  {
    AccessTokenWindow(c, secret, userId, issued, now);
    BearerRoundTrip(c, secret, GenerateTokens(c, secret, userId, issued).accessToken, now);
  }

  const CorsHeaders: seq<(string, string)> := [
    ("Access-Control-Allow-Origin", "*"),
    ("Access-Control-Allow-Methods", "GET, POST, PUT, DELETE, OPTIONS"),
    ("Access-Control-Allow-Headers", "Content-Type, Authorization")
  ]

  function HeaderNames(hs: seq<(string, string)>): set<string>
  {
    set h | h in hs :: h.0
  }

  /**
   * `headers.set(name, value)`: replaces any header of that name, or appends it. Names are
   * compared as written, not case-insensitively, because every caller uses one spelling.
   */
  function SetHeader(hs: seq<(string, string)>, name: string, value: string): (r: seq<(string, string)>)
    ensures (name, value) in r
    ensures forall h :: h in r ==> h == (name, value) || (h in hs && h.0 != name)
    ensures forall h :: h in hs && h.0 != name ==> h in r
  {
    if hs == [] then [(name, value)]
    else if hs[0].0 == name then [(name, value)] + RemoveHeader(hs[1..], name)
    else [hs[0]] + SetHeader(hs[1..], name, value)
  }

  function RemoveHeader(hs: seq<(string, string)>, name: string): (r: seq<(string, string)>)
    ensures forall h :: h in r <==> h in hs && h.0 != name
  {
    if hs == [] then [] else (if hs[0].0 == name then [] else [hs[0]]) + RemoveHeader(hs[1..], name)
  }

  /**
   * `withCors` after the inner handler has answered: status and body are kept and the
   * three Access-Control headers are set, whatever the status (a 401 or 429 included).
   */
  function WithCors(r: Response): (out: Response)
    ensures out.status == r.status && out.body == r.body
    ensures forall h :: h in CorsHeaders ==> h in out.headers
    ensures forall h :: h in r.headers && h.0 !in HeaderNames(CorsHeaders) ==> h in out.headers
  {
    var hs := SetHeader(r.headers, CorsHeaders[0].0, CorsHeaders[0].1);
    var hs := SetHeader(hs, CorsHeaders[1].0, CorsHeaders[1].1);
    var hs := SetHeader(hs, CorsHeaders[2].0, CorsHeaders[2].1);
    Response(r.status, r.body, hs)
  }

  /** Stamping twice changes nothing more than stamping once. */
  lemma WithCorsIdempotent(r: Response)
    ensures WithCors(WithCors(r)).status == WithCors(r).status
    ensures WithCors(WithCors(r)).body == WithCors(r).body
    ensures forall h :: h in WithCors(WithCors(r)).headers <==> h in WithCors(r).headers
  {
  }
}
