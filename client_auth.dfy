/**
 * The client half of the credential lifecycle: the static validators and error mapping of
 * src/services/AuthService.ts (mobile) and lib/auth-client.ts (web), the e-mail
 * normalisation both apply before sending, and the headers and bodies they put on requests.
 */
module ClientAuth {
  import opened Wrappers
  import opened Text
  import opened Users
  import opened Validation
  import opened Tokens
  import opened Http
  import opened Middleware
  import opened Store
  import RefreshRoute
  import LogoutRoute

  // ------------------------------------------------------------- validators

  /** `validateEmail`: the same pattern as the server's e-mail check. */
  function ValidateEmail(email: string): (ok: bool)
    ensures ok <==> EmailShape(email)
    ensures ok ==> CountChar(email, '@') == 1 && NoSpace(email)
  {
    ValidEmailIsShape(email);
    ValidEmail(email)
  }

  /** The five checks of `validatePassword`, in the order they run. */
  datatype Rule = MinLength | Lowercase | Uppercase | Digit | Special

  const RuleOrder: seq<Rule> := [MinLength, Lowercase, Uppercase, Digit, Special]

  function Rank(r: Rule): nat
  {
    match r
    case MinLength => 0
    case Lowercase => 1
    case Uppercase => 2
    case Digit => 3
    case Special => 4
  }

  predicate Holds(r: Rule, p: string)
  {
    match r
    case MinLength => |p| >= 8
    case Lowercase => HasLower(p)
    case Uppercase => HasUpper(p)
    case Digit => HasDigit(p)
    case Special => HasSpecial(p)
  }

  const LengthMessage := "La contraseña debe tener al menos 8 caracteres"
  const LowercaseMessage := "Debe contener al menos una letra minúscula"
  const UppercaseMessage := "Debe contener al menos una letra mayúscula"
  const DigitMessage := "Debe contener al menos un número"
  const SpecialMessage := "Debe contener al menos un carácter especial (@$!%*?&)"

  function Message(r: Rule): string
  {
    match r
    case MinLength => LengthMessage
    case Lowercase => LowercaseMessage
    case Uppercase => UppercaseMessage
    case Digit => DigitMessage
    case Special => SpecialMessage
  }

  /** The rule, if the password breaks it. */
  function Check(r: Rule, p: string): seq<Rule>
  {
    if Holds(r, p) then [] else [r]
  }

  /** The rules a password breaks, in check order. */
  function FailedRules(p: string): seq<Rule>
  {
    Check(MinLength, p) + Check(Lowercase, p) + Check(Uppercase, p) + Check(Digit, p) + Check(Special, p)
  }

  /** The messages of the given rules, in the same order. */
  function Messages(rules: seq<Rule>): (r: seq<string>)
    ensures |r| == |rules|
  {
    if rules == [] then [] else [Message(rules[0])] + Messages(rules[1..])
  }

  function PasswordErrors(p: string): seq<string>
  {
    Messages(FailedRules(p))
  }

  /** The message of a rule the password breaks, or nothing. */
  function Report(r: Rule, p: string): seq<string>
  {
    if Holds(r, p) then [] else [Message(r)]
  }

  /**
   * `validatePassword`: every failed check pushes its message, so the list holds one message
   * per broken rule, in check order, and the password is valid iff the list is empty.
   */
  method ValidatePassword(p: string) returns (isValid: bool, errors: seq<string>)
    ensures errors == PasswordErrors(p)
    ensures isValid <==> errors == []
  {
    errors := [];
    if |p| < 8 {
      errors := errors + [LengthMessage];
    }
    assert errors == Report(MinLength, p);
    if !HasLower(p) {
      errors := errors + [LowercaseMessage];
    }
    assert errors == Report(MinLength, p) + Report(Lowercase, p);
    if !HasUpper(p) {
      errors := errors + [UppercaseMessage];
    }
    assert errors == Report(MinLength, p) + Report(Lowercase, p) + Report(Uppercase, p);
    if !HasDigit(p) {
      errors := errors + [DigitMessage];
    }
    assert errors == Report(MinLength, p) + Report(Lowercase, p) + Report(Uppercase, p) + Report(Digit, p);
    if !HasSpecial(p) {
      errors := errors + [SpecialMessage];
    }
    ReportsAreMessages(p);
    isValid := |errors| == 0;
  }

  lemma {:induction false} MessagesConcat(a: seq<Rule>, b: seq<Rule>)
    ensures Messages(a + b) == Messages(a) + Messages(b)
  {
    if a == [] {
      assert a + b == b;
    } else {
      assert (a + b)[0] == a[0];
      assert (a + b)[1..] == a[1..] + b;
      MessagesConcat(a[1..], b);
    }
  }

  lemma MessagesConcat5(a: seq<Rule>, b: seq<Rule>, c: seq<Rule>, d: seq<Rule>, e: seq<Rule>)
    ensures Messages(a + b + c + d + e) == Messages(a) + Messages(b) + Messages(c) + Messages(d) + Messages(e)
  {
    MessagesConcat(a, b);
    MessagesConcat(a + b, c);
    MessagesConcat(a + b + c, d);
    MessagesConcat(a + b + c + d, e);
  }

  lemma ReportIsMessage(r: Rule, p: string)
    ensures Report(r, p) == Messages(Check(r, p))
  {
    if !Holds(r, p) {
      assert Check(r, p)[1..] == [];
    }
  }

  /** Pushing messages check by check yields the messages of the broken rules. */
  lemma ReportsAreMessages(p: string)
    ensures Report(MinLength, p) + Report(Lowercase, p) + Report(Uppercase, p) + Report(Digit, p) + Report(Special, p)
            == PasswordErrors(p)
  {
    MessagesConcat5(Check(MinLength, p), Check(Lowercase, p), Check(Uppercase, p), Check(Digit, p), Check(Special, p));
    ReportIsMessage(MinLength, p);
    ReportIsMessage(Lowercase, p);
    ReportIsMessage(Uppercase, p);
    ReportIsMessage(Digit, p);
    ReportIsMessage(Special, p);
  }

  /** At most five rules, each reported once, in the fixed check order. */
  lemma FailedRulesOrdered(p: string)
    ensures |FailedRules(p)| <= 5
    ensures forall i, j :: 0 <= i < j < |FailedRules(p)| ==> Rank(FailedRules(p)[i]) < Rank(FailedRules(p)[j])
  {
  }

  /** A rule is reported exactly when the password breaks it. */
  lemma FailedRulesExact(p: string, r: Rule)
    ensures r in FailedRules(p) <==> !Holds(r, p)
  {
  }

  /** The five messages are distinct, so the message list names the broken rules unambiguously. */
  lemma MessageInjective(r: Rule, s: Rule)
    requires Message(r) == Message(s)
    ensures r == s
  {
  }

  /** The client accepts exactly the passwords the register and reset schemas accept. */
  lemma PasswordValidIffStrong(p: string)
    ensures PasswordErrors(p) == [] <==> StrongPassword(p)
  {
  }

  /** `validatePhone`: the Chilean pattern, after all whitespace is removed. */
  function ValidatePhone(phone: string): (ok: bool)
    ensures ok ==> var n := |RemoveSpaces(phone)|; n == 9 || n == 11 || n == 12
  {
    var compact := RemoveSpaces(phone);
    if ChileanPhone(compact) then ChileanPhoneShape(compact); true else false
  }

  /** Whitespace anywhere in the input does not change the verdict. */
  lemma PhoneIgnoresSpaces(a: string, b: string, c: char)
    requires IsSpace(c)
    ensures ValidatePhone(a + [c] + b) == ValidatePhone(a + b)
  {
    RemoveSpacesDropsSpace(a, b, c);
  }

  /** On input without whitespace the client check is the server's phone rule. */
  lemma PhoneAgreesWithServer(phone: string)
    requires NoSpace(phone)
    ensures ValidatePhone(phone) == ChileanPhone(phone)
  {
    RemoveSpacesOfNoSpace(phone);
  }

  /** `email.toLowerCase().trim()`, applied before login, register and forgot-password. */
  function NormalizeEmail(email: string): (r: string)
    ensures NoUpper(r)
    ensures r == [] || (!IsSpace(r[0]) && !IsSpace(r[|r| - 1]))
    ensures exists i, j :: (0 <= i <= j <= |email| && r == ToLower(email)[i..j]
                              && (forall k :: 0 <= k < i ==> IsSpace(email[k]))
                              && (forall k :: j <= k < |email| ==> IsSpace(email[k])))
  {
    ToLowerNoUpper(email);
    LowerKeepsSpaces(email);
    TrimKeepsNoUpper(ToLower(email));
    Trim(ToLower(email))
  }

  /** Lower-casing touches only letters, so whitespace stays where it was. */
  lemma LowerKeepsSpaces(s: string)
    ensures forall k :: 0 <= k < |s| ==> (IsSpace(ToLower(s)[k]) <==> IsSpace(s[k]))
  {
  }

  lemma NormalizeEmailIdempotent(email: string)
    ensures NormalizeEmail(NormalizeEmail(email)) == NormalizeEmail(email)
  {
    var n := NormalizeEmail(email);
    ToLowerOfLower(n);
    TrimIdempotent(ToLower(email));
  }

  // ---------------------------------------------------------- error mapping

  /** How an axios call failed: an answer with a status, no answer at all, or a local error. */
  datatype Failure =
    | AnsweredWith(status: int, data: Option<Body>)
    | NoAnswer
    | Local(message: string)

  datatype ApiError = ApiError(message: string, status: int, data: Option<Body>)

  /** `data?.message`, with an absent field read as the empty string (both are falsy). */
  function MessageField(data: Option<Body>): string
  {
    if data.Some? && data.value.MessageBody? then data.value.message else ""
  }

  /** `a || b` on strings. */
  function OrElse(a: string, b: string): (r: string)
    ensures r != "" || b == ""
    ensures a != "" ==> r == a
  {
    if a != "" then a else b
  }

  /** `handleError` of the mobile client: the server status, 0 without an answer, -1 otherwise. */
  function HandleError(e: Failure): (r: ApiError)
    ensures e.AnsweredWith? ==> r.status == e.status && r.data == e.data
    ensures e.NoAnswer? ==> r == ApiError("Error de conexión. Verifica tu internet.", 0, None)
    ensures e.Local? ==> r.status == -1 && r.data.None?
    ensures r.message != ""
  {
    match e
    case AnsweredWith(status, data) => ApiError(OrElse(MessageField(data), "Error del servidor"), status, data)
    case NoAnswer => ApiError("Error de conexión. Verifica tu internet.", 0, None)
    case Local(message) => ApiError(OrElse(message, "Error inesperado"), -1, None)
  }

  /**
   * The message of the error `request` throws on a non-OK answer in the web client:
   * an unreadable body reads as "Error de conexión", then `message || "Error <status>"`.
   */
  function ResponseErrorMessage(status: nat, data: Option<Body>): (r: string)
    ensures r != ""
    ensures data.None? ==> r == "Error de conexión"
  {
    if data.None? then "Error de conexión" else OrElse(MessageField(data), "Error " + NatToString(status))
  }

  /**
   * Every error answer of the server carries its text under `error`, which neither client
   * reads: the mobile client always shows "Error del servidor" and the web client
   * "Error <status>", whatever the server said.
   */
  lemma ServerErrorTextLost(status: nat, error: string)
    ensures HandleError(AnsweredWith(status, Some(ErrorBody(error)))).message == "Error del servidor"
    ensures ResponseErrorMessage(status, Some(ErrorBody(error))) == "Error " + NatToString(status)
  {
  }

  /** The web client's error text when it reads the field the server actually writes. */
  function ErrorText(data: Option<Body>): string
  {
    if data.Some? && data.value.ErrorBody? then data.value.error else MessageField(data)
  }

  function ResponseErrorMessageFixed(status: nat, data: Option<Body>): (r: string)
    ensures r != ""
  {
    if data.None? then "Error de conexión" else OrElse(ErrorText(data), "Error " + NatToString(status))
  }

  function HandleErrorFixed(e: Failure): (r: ApiError)
    ensures r.message != ""
  {
    match e
    case AnsweredWith(status, data) => ApiError(OrElse(ErrorText(data), "Error del servidor"), status, data)
    case NoAnswer => ApiError("Error de conexión. Verifica tu internet.", 0, None)
    case Local(message) => ApiError(OrElse(message, "Error inesperado"), -1, None)
  }

  /** With the corrected reading, the server's own error text reaches the user unchanged. */
  lemma ServerErrorTextShown(status: nat, error: string)
    requires error != ""
    ensures HandleErrorFixed(AnsweredWith(status, Some(ErrorBody(error)))).message == error
    ensures ResponseErrorMessageFixed(status, Some(ErrorBody(error))) == error
  {
  }

  /** The corrected reading agrees with the original on every body that has a `message`. */
  lemma FixedAgreesOnMessages(status: nat, data: Option<Body>)
    requires data.Some? && !data.value.ErrorBody?
    ensures ResponseErrorMessageFixed(status, data) == ResponseErrorMessage(status, data)
    ensures HandleErrorFixed(AnsweredWith(status, data)) == HandleError(AnsweredWith(status, data))
  {
  }

  // -------------------------------------------------------- request building

  /** `if (token) Authorization = "Bearer " + token`: both clients send it only with a stored token. */
  function BearerHeader(stored: Option<string>): (r: Option<string>)
    ensures r.Some? <==> stored.Some? && stored.value != ""
  {
    if stored.Some? && stored.value != "" then Some("Bearer " + stored.value) else None
  }

  /** The headers of the web `request` helper (and the mobile request interceptor). */
  function RequestHeaders(stored: Option<string>): Headers
  {
    Headers(BearerHeader(stored), None, None)
  }

  /** Without a stored token a protected route answers 401 "Token de autorización requerido". */
  lemma NoTokenIsRefused(c: Crypto, secret: string, stored: Option<string>, now: nat)
    requires stored.None? || stored.value == ""
    ensures Authenticate(c, secret, RequestHeaders(stored).authorization, now)
            == Failure(Json(401, ErrorBody(AuthorizationRequired)))
  {
  }

  /** A stored access token the server issued opens every protected route for its user within its lifetime. */
  lemma StoredTokenAuthenticates(c: Crypto, secret: string, userId: UserId, issued: nat, now: nat)
    requires Sound(c) && issued <= now < issued + (AccessTtl - 1) * 1000
    requires GenerateTokens(c, secret, userId, issued).accessToken != ""
    ensures var stored := Some(GenerateTokens(c, secret, userId, issued).accessToken);
            Authenticate(c, secret, RequestHeaders(stored).authorization, now) == Success(userId)
  {
    IssuedTokenAuthenticates(c, secret, userId, issued, now);
  }

  /** The web `logout` adds `X-Refresh-Token` only when a refresh token is stored. */
  function LogoutHeaders(stored: Option<string>, storedRefresh: Option<string>): (h: Headers)
    ensures h.authorization == BearerHeader(stored)
  {
    var refresh := if storedRefresh.Some? && storedRefresh.value != "" then storedRefresh else None;
    Headers(BearerHeader(stored), refresh, None)
  }

  /**
   * With a refresh token stored, the logout revokes that token only; without one the server
   * falls back to revoking every refresh row of the user.
   */
  lemma LogoutScope(stored: Option<string>, storedRefresh: Option<string>)
    ensures LogoutRoute.Targeted(LogoutHeaders(stored, storedRefresh))
            <==> storedRefresh.Some? && storedRefresh.value != ""
    ensures LogoutRoute.Targeted(LogoutHeaders(stored, storedRefresh))
            ==> LogoutHeaders(stored, storedRefresh).refreshToken == storedRefresh
  {
  }

  const NoRefreshToken := "No refresh token available"

  /** `refreshToken`: fails before any request when nothing is stored, else posts the stored token. */
  function RefreshRequest(storedRefresh: Option<string>): (r: Result<RefreshRoute.RefreshBody, string>)
    ensures r.Failure? <==> storedRefresh.None? || storedRefresh.value == ""
    ensures r.Failure? ==> r.error == NoRefreshToken
    ensures r.Success? ==> r.value.refreshToken == storedRefresh
  {
    if storedRefresh.None? || storedRefresh.value == "" then Failure(NoRefreshToken)
    else Success(RefreshRoute.RefreshBody(storedRefresh))
  }

  /** A refresh body the client sends is never the one the server rejects as missing (400). */
  lemma RefreshRequestCarriesToken(storedRefresh: Option<string>)
    requires RefreshRequest(storedRefresh).Success?
    ensures RefreshRequest(storedRefresh).value.refreshToken.Some?
    ensures RefreshRequest(storedRefresh).value.refreshToken.value != ""
  {
  }

  // ------------------------------------------------------------ web bodies

  /** The `deviceInfo` the web client attaches: `platform` set, `userAgent` an unknown key the schema drops. */
  const WebDeviceInfo := RawDeviceInfo(Some("web"), None, None, None, None)

  /** The body of the web `login` call as written. */
  function WebLoginBody(email: string, password: string): (b: LoginBody)
    ensures b.email == Some(NormalizeEmail(email)) && b.password == Some(password)
  {
    LoginBody(Some(NormalizeEmail(email)), Some(password), Absent, Given(WebDeviceInfo))
  }

  /** The body of the web `register` call as written. */
  function WebRegisterBody(email: string, password: string, firstName: string, lastName: string,
                           phone: Field<string>, acceptTerms: bool): (b: RegisterBody)
    ensures b.email == Some(NormalizeEmail(email)) && b.acceptTerms == Some(acceptTerms)
  {
    RegisterBody(Some(NormalizeEmail(email)), Some(password), Some(firstName), Some(lastName), phone,
                 Some(acceptTerms), Absent, Absent, Given(WebDeviceInfo))
  }

  /**
   * The web `deviceInfo` lacks the four other fields the login and register schemas require
   * of a present `deviceInfo`, so every web login and registration is refused with 400.
   */
  lemma WebCredentialsAlwaysRefused(email: string, password: string, firstName: string, lastName: string,
                                    phone: Field<string>, acceptTerms: bool)
    ensures !LoginSchema(WebLoginBody(email, password))
    ensures !RegisterSchema(WebRegisterBody(email, password, firstName, lastName, phone, acceptTerms))
  {
  }

  /** The web bodies without `deviceInfo`, which the schemas treat as optional. */
  function WebLoginBodyFixed(email: string, password: string): (b: LoginBody)
    ensures b.email == Some(NormalizeEmail(email)) && b.password == Some(password)
  {
    LoginBody(Some(NormalizeEmail(email)), Some(password), Absent, Absent)
  }

  function WebRegisterBodyFixed(email: string, password: string, firstName: string, lastName: string,
                                phone: Field<string>, acceptTerms: bool): (b: RegisterBody)
    ensures b.email == Some(NormalizeEmail(email)) && b.acceptTerms == Some(acceptTerms)
  {
    RegisterBody(Some(NormalizeEmail(email)), Some(password), Some(firstName), Some(lastName), phone,
                 Some(acceptTerms), Absent, Absent, Absent)
  }

  /**
   * Without the partial `deviceInfo`, credentials that pass the client's own checks pass the
   * server schemas: login needs a valid normalised e-mail and six characters, register the
   * five password rules, two-character names, a Chilean phone and accepted terms.
   */
  lemma WebCredentialsFixedAccepted(email: string, password: string, firstName: string, lastName: string,
                                    phone: Field<string>)
    requires ValidateEmail(NormalizeEmail(email))
    ensures |password| >= 6 ==> LoginSchema(WebLoginBodyFixed(email, password))
    ensures PasswordErrors(password) == [] && |firstName| >= 2 && |lastName| >= 2
            && (phone.Absent? || (phone.Given? && ChileanPhone(phone.value)))
            ==> RegisterSchema(WebRegisterBodyFixed(email, password, firstName, lastName, phone, true))
  {
    PasswordValidIffStrong(password);
  }
}
