/**
 * Token and credential primitives of lib/auth.ts. The JWT signer, the bcrypt
 * hasher and the random source are foreign code: they enter the model as the
 * functions of a `Crypto` value, and `Sound` states what is assumed of them.
 * Time is milliseconds since the epoch; JWT `iat`/`exp` claims are seconds.
 */
module Tokens {
  import opened Wrappers
  import opened Users

  /** `JWT_EXPIRES_IN = "7d"`, in seconds; also the `expiresIn` every route reports. */
  const AccessTtl: nat := 7 * 24 * 60 * 60
  /** `REFRESH_TOKEN_EXPIRES_IN = "30d"`, in seconds. */
  const RefreshTtl: nat := 30 * 24 * 60 * 60
  /** The `expires_at` offset of a stored refresh-token row, in milliseconds. */
  const RefreshRowTtlMs: nat := 30 * 24 * 60 * 60 * 1000
  /** The lifetime of a password-reset row, in milliseconds. */
  const ResetTtlMs: nat := 60 * 60 * 1000

  const InvalidToken := "Token inválido"

  /** A JWT payload: `{userId}` for access tokens, `{userId, type: "refresh"}` for refresh tokens. */
  datatype Claims = Claims(userId: UserId, refresh: bool, iat: nat, exp: nat)

  /**
   * The foreign primitives. `sign(claims, secret)` is jsonwebtoken's HMAC signer,
   * `decode(token, secret)` its signature check (None on a bad signature or a
   * malformed token); `hash(password, salt)` and `compare(password, hash)` are bcrypt.
   */
  datatype Crypto = Crypto(
    sign: (Claims, string) -> string,
    decode: (string, string) -> Option<Claims>,
    hash: (string, nat) -> string,
    compare: (string, string) -> bool)

  /** What the model assumes of the primitives: decode inverts sign, and a hash matches its password. */
  ghost predicate Sound(c: Crypto)
  {
    && (forall claims, secret :: c.decode(c.sign(claims, secret), secret) == Some(claims))
    && (forall p, salt :: c.compare(p, c.hash(p, salt)))
  }

  /** jsonwebtoken stamps `iat` as whole seconds. */
  function Seconds(now: nat): nat { now / 1000 }

  datatype TokenPair = TokenPair(accessToken: string, refreshToken: string)

  function AccessClaims(userId: UserId, now: nat): Claims
  {
    Claims(userId, false, Seconds(now), Seconds(now) + AccessTtl)
  }

  function RefreshClaims(userId: UserId, now: nat): Claims
  {
    Claims(userId, true, Seconds(now), Seconds(now) + RefreshTtl)
  }

  /** `generateTokens`: both tokens are signed with the one secret at the same instant. */
  function GenerateTokens(c: Crypto, secret: string, userId: UserId, now: nat): (r: TokenPair)
    ensures r.accessToken == c.sign(AccessClaims(userId, now), secret)
    ensures r.refreshToken == c.sign(RefreshClaims(userId, now), secret)
  {
    TokenPair(c.sign(AccessClaims(userId, now), secret), c.sign(RefreshClaims(userId, now), secret))
  }

  /**
   * `verifyToken`: a bad signature, a malformed token and an expired token all give the
   * one error "Token inválido"; the `type` claim is never looked at.
   */
  function VerifyToken(c: Crypto, secret: string, token: string, now: nat): (r: Result<UserId, string>)
    ensures r.Failure? ==> r.error == InvalidToken
    ensures r.Success? <==> c.decode(token, secret).Some? && Seconds(now) < c.decode(token, secret).value.exp
    ensures r.Success? ==> r.value == c.decode(token, secret).value.userId
  {
    match c.decode(token, secret)
    case None => Failure(InvalidToken)
    case Some(claims) =>
      if Seconds(now) >= claims.exp then Failure(InvalidToken) else Success(claims.userId)
  }

  /** An access token verifies, for its user, exactly until the 7-day `exp` second. */
  lemma AccessTokenLifetime(c: Crypto, secret: string, userId: UserId, issued: nat, now: nat)
    requires Sound(c)
    ensures var r := VerifyToken(c, secret, GenerateTokens(c, secret, userId, issued).accessToken, now);
            (r.Success? <==> Seconds(now) < Seconds(issued) + AccessTtl) && (r.Success? ==> r.value == userId)
  {
    assert c.decode(c.sign(AccessClaims(userId, issued), secret), secret) == Some(AccessClaims(userId, issued));
  }

  /** In milliseconds: valid for the first 604 799 s after issuance, invalid from 604 800 s on. */
  lemma AccessTokenWindow(c: Crypto, secret: string, userId: UserId, issued: nat, now: nat)
    requires Sound(c) && issued <= now
    ensures now < issued + (AccessTtl - 1) * 1000 ==>
              VerifyToken(c, secret, GenerateTokens(c, secret, userId, issued).accessToken, now) == Success(userId)
    ensures now >= issued + AccessTtl * 1000 ==>
              VerifyToken(c, secret, GenerateTokens(c, secret, userId, issued).accessToken, now).Failure?
  {
    AccessTokenLifetime(c, secret, userId, issued, now);
  }

  /** The refresh token also verifies as an access token, for its full 30 days. */
  lemma RefreshTokenAcceptedAsAccess(c: Crypto, secret: string, userId: UserId, issued: nat, now: nat)
    requires Sound(c)
    ensures var r := VerifyToken(c, secret, GenerateTokens(c, secret, userId, issued).refreshToken, now);
            (r.Success? <==> Seconds(now) < Seconds(issued) + RefreshTtl) && (r.Success? ==> r.value == userId)
  {
    assert c.decode(c.sign(RefreshClaims(userId, issued), secret), secret) == Some(RefreshClaims(userId, issued));
  }

  /** A token signed under another secret, or any string the signer never produced, is refused. */
  lemma ForeignTokenRefused(c: Crypto, secret: string, token: string, now: nat)
    requires c.decode(token, secret).None?
    ensures VerifyToken(c, secret, token, now) == Failure(InvalidToken)
  {
  }

  /** Signing is injective under a sound signer. */
  lemma SignInjective(c: Crypto, a: Claims, b: Claims, secret: string)
    requires Sound(c) && c.sign(a, secret) == c.sign(b, secret)
    ensures a == b
  {
    assert Some(a) == c.decode(c.sign(a, secret), secret);
    assert Some(b) == c.decode(c.sign(b, secret), secret);
  }

  /**
   * Signing is deterministic: two refresh tokens for one user are the same string
   * exactly when they are issued within the same second.
   */
  lemma RefreshTokenSameSecond(c: Crypto, secret: string, userId: UserId, t1: nat, t2: nat)
    requires Sound(c)
    ensures GenerateTokens(c, secret, userId, t1).refreshToken == GenerateTokens(c, secret, userId, t2).refreshToken
            <==> Seconds(t1) == Seconds(t2)
  {
    if GenerateTokens(c, secret, userId, t1).refreshToken == GenerateTokens(c, secret, userId, t2).refreshToken {
      SignInjective(c, RefreshClaims(userId, t1), RefreshClaims(userId, t2), secret);
    }
  }

  /** Access and refresh tokens never coincide, since their claims differ in `type`. */
  lemma AccessDiffersFromRefresh(c: Crypto, secret: string, u1: UserId, t1: nat, u2: UserId, t2: nat)
    requires Sound(c)
    ensures GenerateTokens(c, secret, u1, t1).accessToken != GenerateTokens(c, secret, u2, t2).refreshToken
  {
    if GenerateTokens(c, secret, u1, t1).accessToken == GenerateTokens(c, secret, u2, t2).refreshToken {
      SignInjective(c, AccessClaims(u1, t1), RefreshClaims(u2, t2), secret);
    }
  }

  // ------------------------------------------------------------ reset tokens

  newtype Byte = x: int | 0 <= x < 256

  function HexDigit(n: int): (r: char)
    requires 0 <= n < 16
    ensures IsHexDigit(r)
  {
    if n < 10 then ('0' as int + n) as char else ('a' as int + n - 10) as char
  }

  predicate IsHexDigit(ch: char)
  {
    ('0' <= ch <= '9') || ('a' <= ch <= 'f')
  }

  function HexValue(ch: char): (n: int)
    requires IsHexDigit(ch)
    ensures 0 <= n < 16 && HexDigit(n) == ch
  {
    if ch <= '9' then ch as int - '0' as int else ch as int - 'a' as int + 10
  }

  /** `Buffer.toString("hex")`: two lower-case hex digits per byte, high nibble first. */
  function Hex(bytes: seq<Byte>): (r: string)
    ensures |r| == 2 * |bytes|
    ensures forall k :: 0 <= k < |r| ==> IsHexDigit(r[k])
  {
    if bytes == [] then [] else [HexDigit(bytes[0] as int / 16), HexDigit(bytes[0] as int % 16)] + Hex(bytes[1..])
  }

  /** The inverse of `Hex`, used only to state that the encoding loses nothing. */
  function Unhex(s: string): (r: seq<Byte>)
    requires |s| % 2 == 0
    requires forall k :: 0 <= k < |s| ==> IsHexDigit(s[k])
    ensures |r| == |s| / 2
  {
    if s == [] then [] else [(HexValue(s[0]) * 16 + HexValue(s[1])) as Byte] + Unhex(s[2..])
  }

  lemma {:induction false} UnhexHex(bytes: seq<Byte>)
    ensures Unhex(Hex(bytes)) == bytes
  {
    if bytes != [] {
      var b := bytes[0] as int;
      var h := Hex(bytes);
      assert h[2..] == Hex(bytes[1..]);
      assert HexValue(h[0]) == b / 16 by { assert HexDigit(HexValue(h[0])) == HexDigit(b / 16); HexDigitInjective(HexValue(h[0]), b / 16); }
      assert HexValue(h[1]) == b % 16 by { assert HexDigit(HexValue(h[1])) == HexDigit(b % 16); HexDigitInjective(HexValue(h[1]), b % 16); }
      UnhexHex(bytes[1..]);
    }
  }

  lemma HexDigitInjective(a: int, b: int)
    requires 0 <= a < 16 && 0 <= b < 16 && HexDigit(a) == HexDigit(b)
    ensures a == b
  {
  }

  /** The reset token drawn from 32 random bytes is 64 hex characters, and distinct draws give distinct tokens. */
  lemma ResetTokenShape(b1: seq<Byte>, b2: seq<Byte>)
    requires |b1| == 32 && |b2| == 32
    ensures |Hex(b1)| == 64
    ensures Hex(b1) == Hex(b2) <==> b1 == b2
  {
    if Hex(b1) == Hex(b2) {
      UnhexHex(b1);
      UnhexHex(b2);
    }
  }
}
