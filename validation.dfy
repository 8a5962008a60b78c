/**
 * The request schemas of lib/validation.ts as predicates over typed request bodies.
 * A required field that is absent from the JSON body, or present with the wrong JSON type,
 * is `None`, and the schema rejects it. An optional field is a `Field`: absent, present but
 * malformed (`null` or the wrong JSON type, which `.optional()` rejects), or given.
 */
module Validation {
  import opened Wrappers
  import opened Text
  import opened Users

  // ---------------------------------------------------------------- e-mail

  /** A run of the pattern class `[^\s@]+`. */
  predicate Atom(s: string)
  {
    |s| > 0 && forall k :: 0 <= k < |s| ==> !IsSpace(s[k]) && s[k] != '@'
  }

  /** Strings matched by `^[^\s@]+@[^\s@]+\.[^\s@]+$`: local@domain.tld. */
  ghost predicate EmailShape(s: string)
  {
    exists local, domain, tld :: Atom(local) && Atom(domain) && Atom(tld) && s == local + "@" + domain + "." + tld
  }

  function CountChar(s: string, c: char): (n: nat)
    ensures n <= |s|
    ensures n == 0 <==> c !in s
  {
    if s == [] then 0 else (if s[0] == c then 1 else 0) + CountChar(s[1..], c)
  }

  function IndexOf(s: string, c: char): (i: nat)
    requires c in s
    ensures i < |s| && s[i] == c && c !in s[..i]
  {
    if s[0] == c then 0 else 1 + IndexOf(s[1..], c)
  }

  lemma {:induction false} CountConcat(a: string, b: string, c: char)
    ensures CountChar(a + b, c) == CountChar(a, c) + CountChar(b, c)
  {
    if a == [] {
      assert a + b == b;
    } else {
      assert (a + b)[1..] == a[1..] + b;
      CountConcat(a[1..], b, c);
    }
  }

  /** A '.' with at least one character on each side. */
  predicate HasInnerDot(d: string)
  {
    exists k :: 0 < k < |d| - 1 && d[k] == '.'
  }

  /**
   * The e-mail check of the client validators, written as a scan: no whitespace,
   * exactly one '@' which is not the first character, and an inner '.' after it.
   * The server schemas use the same rule for their `email` fields.
   */
  function ValidEmail(s: string): (ok: bool)
    ensures ok ==> CountChar(s, '@') == 1 && NoSpace(s) && s[0] != '@'
  {
    if NoSpace(s) && CountChar(s, '@') == 1 then
      var i := IndexOf(s, '@');
      0 < i && HasInnerDot(s[i + 1..])
    else
      false
  }

  lemma AtomNoAt(s: string)
    requires Atom(s)
    ensures CountChar(s, '@') == 0 && NoSpace(s)
  {
  }

  /** The scan accepts exactly the strings of the shape local@domain.tld. */
  lemma ValidEmailIsShape(s: string)
    ensures ValidEmail(s) <==> EmailShape(s)
  {
    if ValidEmail(s) {
      ValidIsShape(s);
    }
    if EmailShape(s) {
      var local, domain, tld :| Atom(local) && Atom(domain) && Atom(tld) && s == local + "@" + domain + "." + tld;
      ShapeIsValid(local, domain, tld);
    }
  }

  lemma ValidIsShape(s: string)
    requires ValidEmail(s)
    ensures EmailShape(s)
  {
    var i := IndexOf(s, '@');
    var d := s[i + 1..];
    var k :| 0 < k < |d| - 1 && d[k] == '.';
    assert s[i + 1 + k] == '.';
    OnlyAt(s, i);
    SliceAtom(s, 0, i);
    SliceAtom(s, i + 1, i + 1 + k);
    SliceAtom(s, i + 2 + k, |s|);
    ShapeWitness(s, s[..i], s[i + 1..i + 1 + k], s[i + 2 + k..]);
  }

  /** An occurrence of `c` at `i` is counted on top of every occurrence after it. */
  lemma {:induction false} CountAfter(s: string, i: nat, c: char)
    requires i < |s| && s[i] == c
    ensures CountChar(s, c) >= 1 + CountChar(s[i + 1..], c)
  {
    if i > 0 {
      CountAfter(s[1..], i - 1, c);
      assert s[1..][i..] == s[i + 1..];
    }
  }

  /** The '@' at `i` is the only one, so none follows it. */
  lemma OnlyAt(s: string, i: nat)
    requires i < |s| && s[i] == '@' && CountChar(s, '@') == 1
    ensures forall j :: i < j < |s| ==> s[j] != '@'
  {
    var rest := s[i + 1..];
    CountAfter(s, i, '@');
    assert '@' !in rest;
    forall j | i < j < |s| ensures s[j] != '@' {
      assert s[j] == rest[j - i - 1];
    }
  }

  lemma SliceAtom(s: string, lo: nat, hi: nat)
    requires lo < hi <= |s| && NoSpace(s)
    requires forall j :: lo <= j < hi ==> s[j] != '@'
    ensures Atom(s[lo..hi])
  {
    forall j | 0 <= j < hi - lo ensures !IsSpace(s[lo..hi][j]) && s[lo..hi][j] != '@' {
      assert s[lo..hi][j] == s[lo + j];
    }
  }

  lemma ShapeWitness(s: string, local: string, domain: string, tld: string)
    requires Atom(local) && Atom(domain) && Atom(tld)
    requires s == local + "@" + domain + "." + tld
    ensures EmailShape(s)
  {
  }

  lemma ShapeIsValid(local: string, domain: string, tld: string)
    requires Atom(local) && Atom(domain) && Atom(tld)
    ensures ValidEmail(local + "@" + domain + "." + tld)
  {
    var d := domain + "." + tld;
    var s := local + "@" + domain + "." + tld;
    assert s == local + ("@" + d);
    AtomNoAt(local);
    AtomNoAt(domain);
    AtomNoAt(tld);
    CountConcat(domain, ".", '@');
    CountConcat(domain + ".", tld, '@');
    assert CountChar(d, '@') == 0;
    CountConcat("@", d, '@');
    CountConcat(local, "@" + d, '@');
    assert NoSpace(s) by {
      forall j | 0 <= j < |s| ensures !IsSpace(s[j]) {
        if j < |local| {
          assert s[j] == local[j];
        } else if j == |local| {
        } else if j < |local| + 1 + |domain| {
          assert s[j] == domain[j - |local| - 1];
        } else if j == |local| + 1 + |domain| {
        } else {
          assert s[j] == tld[j - |local| - 2 - |domain|];
        }
      }
    }
    assert s[|local|] == '@';
    assert s[..|local|] == local;
    var i := IndexOf(s, '@');
    assert i == |local|;
    assert s[i + 1..] == d;
    assert d[|domain|] == '.';
    assert HasInnerDot(d);
  }

  // --------------------------------------------------------------- password

  predicate IsSpecial(c: char)
  {
    c == '@' || c == '$' || c == '!' || c == '%' || c == '*' || c == '?' || c == '&'
  }

  /** `/(?=.*[a-z])/` */
  predicate HasLower(p: string) { exists i :: 0 <= i < |p| && IsLower(p[i]) }
  /** `/(?=.*[A-Z])/` */
  predicate HasUpper(p: string) { exists i :: 0 <= i < |p| && IsUpper(p[i]) }
  /** `/(?=.*\d)/` */
  predicate HasDigit(p: string) { exists i :: 0 <= i < |p| && IsDigit(p[i]) }
  /** `/(?=.*[@$!%*?&])/` */
  predicate HasSpecial(p: string) { exists i :: 0 <= i < |p| && IsSpecial(p[i]) }

  /** The five password rules shared by the register and reset schemas. */
  predicate StrongPassword(p: string)
    ensures StrongPassword(p) ==> |p| >= 8
    ensures !HasLower(p) || !HasUpper(p) ==> !StrongPassword(p)
    ensures !HasDigit(p) || !HasSpecial(p) ==> !StrongPassword(p)
    ensures (forall i :: 0 <= i < |p| ==> IsLower(p[i]) || IsDigit(p[i])) ==> !StrongPassword(p)
  {
    |p| >= 8 && HasLower(p) && HasUpper(p) && HasDigit(p) && HasSpecial(p)
  }

  // ------------------------------------------------------------------ phone

  /** `[2-9]\d{8}` */
  predicate PhoneDigits(s: string)
  {
    |s| == 9 && '2' <= s[0] <= '9' && forall k :: 1 <= k < 9 ==> IsDigit(s[k])
  }

  /** `^(\+56|56)?[2-9]\d{8}$` */
  predicate ChileanPhone(s: string)
    ensures ChileanPhone(s) <==> |s| >= 9 && PhoneDigits(s[|s| - 9..]) && s[..|s| - 9] in {"", "56", "+56"}
  {
    PhoneDigits(s)
    || (StartsWith(s, "+56") && PhoneDigits(s[3..]))
    || (StartsWith(s, "56") && PhoneDigits(s[2..]))
  }

  /** Every accepted phone number has 9, 11 or 12 characters and contains no whitespace. */
  lemma ChileanPhoneShape(s: string)
    requires ChileanPhone(s)
    ensures |s| == 9 || |s| == 11 || |s| == 12
    ensures NoSpace(s)
  {
    var n := |s| - 9;
    assert s[..n] in {"", "56", "+56"};
    assert NoSpace(s[..n]) by {
      forall k | 0 <= k < n ensures !IsSpace(s[..n][k]) {
        assert s[..n][k] in "+56";
      }
    }
    assert NoSpace(s[n..]) by {
      forall k | 0 <= k < 9 ensures !IsSpace(s[n..][k]) {
        assert k == 0 || IsDigit(s[n..][k]);
      }
    }
    forall k | 0 <= k < |s| ensures !IsSpace(s[k]) {
      if k < n { assert s[k] == s[..n][k]; } else { assert s[k] == s[n..][k - n]; }
    }
  }

  // -------------------------------------------------------------------- url

  predicate IsAsciiLetter(c: char) { IsLower(c) || IsUpper(c) }

  predicate SchemeChar(c: char) { IsAsciiLetter(c) || IsDigit(c) || c == '+' || c == '-' || c == '.' }

  /** Stand-in for the URL parser behind `.url()`: a scheme, a ':' and a non-empty rest. */
  predicate UrlShape(s: string)
  {
    exists k :: 0 < k < |s| - 1 && s[k] == ':' && IsAsciiLetter(s[0])
                && forall j :: 1 <= j < k ==> SchemeChar(s[j])
  }

  // ---------------------------------------------------------------- schemas

  /** An optional key of a JSON body: absent, present with a value of the wrong type (or `null`), or given. */
  datatype Field<+T> = Absent | Malformed | Given(value: T)
  {
    /** The value the parsed body carries: `undefined` unless given. */
    function ToOption(): (o: Option<T>)
      ensures o.Some? <==> Given?
      ensures o.Some? ==> o.value == value
    {
      if Given? then Some(value) else None
    }
  }

  /** The `deviceInfo` object as it arrives; `version` may be a string or a number (kept as text). */
  datatype RawDeviceInfo = RawDeviceInfo(
    platform: Option<string>,
    version: Option<string>,
    deviceId: Option<string>,
    appVersion: Option<string>,
    buildNumber: Option<string>)

  /** An absent `deviceInfo` is accepted; a present one must be an object with all five fields. */
  predicate DeviceInfoOk(d: Field<RawDeviceInfo>)
  {
    d.Absent? || (d.Given? && d.value.platform.Some? && d.value.version.Some? && d.value.deviceId.Some?
                  && d.value.appVersion.Some? && d.value.buildNumber.Some?)
  }

  predicate EmailField(e: Option<string>)
  {
    e.Some? && ValidEmail(e.value)
  }

  datatype LoginBody = LoginBody(
    email: Option<string>,
    password: Option<string>,
    platform: Field<string>,
    deviceInfo: Field<RawDeviceInfo>)

  /** `loginSchema` */
  predicate LoginSchema(b: LoginBody)
    ensures LoginSchema(b) ==> && b.email.Some? && CountChar(b.email.value, '@') == 1
                               && b.password.Some? && |b.password.value| >= 6
    ensures b.email.None? || b.password.None? ==> !LoginSchema(b)
    ensures b.platform.Malformed? || b.deviceInfo.Malformed? ==> !LoginSchema(b)
    ensures b.deviceInfo.Given? && b.deviceInfo.value.deviceId.None? ==> !LoginSchema(b)
  {
    && EmailField(b.email)
    && b.password.Some? && |b.password.value| >= 6
    && !b.platform.Malformed?
    && DeviceInfoOk(b.deviceInfo)
  }

  datatype RegisterBody = RegisterBody(
    email: Option<string>,
    password: Option<string>,
    firstName: Option<string>,
    lastName: Option<string>,
    phone: Field<string>,
    acceptTerms: Option<bool>,
    acceptMarketing: Field<bool>,
    platform: Field<string>,
    deviceInfo: Field<RawDeviceInfo>)

  /** `registerSchema`; `acceptTerms` must be present and exactly `true`. */
  predicate RegisterSchema(b: RegisterBody)
    ensures RegisterSchema(b) ==> && b.email.Some? && CountChar(b.email.value, '@') == 1
                                  && b.password.Some? && |b.password.value| >= 8
                                  && b.firstName.Some? && b.lastName.Some?
                                  && (b.phone.Given? ==> |b.phone.value| >= 9)
    ensures b.acceptTerms != Some(true) ==> !RegisterSchema(b)
    ensures b.email.None? || b.password.None? || b.firstName.None? || b.lastName.None? ==> !RegisterSchema(b)
    ensures b.phone.Malformed? || b.acceptMarketing.Malformed? || b.platform.Malformed? || b.deviceInfo.Malformed?
            ==> !RegisterSchema(b)
  {
    && EmailField(b.email)
    && b.password.Some? && StrongPassword(b.password.value)
    && b.firstName.Some? && |b.firstName.value| >= 2
    && b.lastName.Some? && |b.lastName.value| >= 2
    && (b.phone.Absent? || (b.phone.Given? && ChileanPhone(b.phone.value)))
    && b.acceptTerms == Some(true)
    && !b.acceptMarketing.Malformed?
    && !b.platform.Malformed?
    && DeviceInfoOk(b.deviceInfo)
  }

  datatype ForgotPasswordBody = ForgotPasswordBody(email: Option<string>)

  /** `forgotPasswordSchema` */
  predicate ForgotPasswordSchema(b: ForgotPasswordBody)
    ensures ForgotPasswordSchema(b) ==> b.email.Some? && CountChar(b.email.value, '@') == 1 && NoSpace(b.email.value)
    ensures b.email.None? ==> !ForgotPasswordSchema(b)
  {
    EmailField(b.email)
  }

  datatype ResetPasswordBody = ResetPasswordBody(token: Option<string>, password: Option<string>)

  /** `resetPasswordSchema` */
  predicate ResetPasswordSchema(b: ResetPasswordBody)
    ensures ResetPasswordSchema(b) ==> b.token.Some? && b.token.value != [] && b.password.Some? && |b.password.value| >= 8
    ensures b.token == Some([]) || b.token.None? || b.password.None? ==> !ResetPasswordSchema(b)
  {
    b.token.Some? && |b.token.value| >= 1 && b.password.Some? && StrongPassword(b.password.value)
  }

  datatype ProfileBody = ProfileBody(
    firstName: Field<string>,
    lastName: Field<string>,
    phone: Field<string>,
    avatar: Field<string>,
    preferences: Field<Preferences>)

  predicate ValidTheme(t: string)
  {
    t == "light" || t == "dark" || t == "system"
  }

  /** `updateProfileSchema`: every field optional, each checked only when present. */
  predicate UpdateProfileSchema(b: ProfileBody)
    ensures UpdateProfileSchema(b) ==> (b.phone.Given? ==> |b.phone.value| >= 9)
    ensures UpdateProfileSchema(b) ==> (b.preferences.Given? ==> b.preferences.value.theme in {"light", "dark", "system"})
    ensures b.firstName.Given? && |b.firstName.value| < 2 ==> !UpdateProfileSchema(b)
    ensures (|| b.firstName.Malformed? || b.lastName.Malformed? || b.phone.Malformed?
             || b.avatar.Malformed? || b.preferences.Malformed?) ==> !UpdateProfileSchema(b)
  {
    && (b.firstName.Absent? || (b.firstName.Given? && |b.firstName.value| >= 2))
    && (b.lastName.Absent? || (b.lastName.Given? && |b.lastName.value| >= 2))
    && (b.phone.Absent? || (b.phone.Given? && ChileanPhone(b.phone.value)))
    && (b.avatar.Absent? || (b.avatar.Given? && UrlShape(b.avatar.value)))
    && (b.preferences.Absent? || (b.preferences.Given? && ValidTheme(b.preferences.value.theme)))
  }

  /** Registration's password rules imply login's minimum length. */
  lemma StrongPasswordPassesLogin(p: string)
    requires StrongPassword(p)
    ensures |p| >= 6
  {
  }

  /** Every body valid for registration, re-sent to login, passes the login schema. */
  lemma RegisterBodyPassesLogin(b: RegisterBody)
    requires RegisterSchema(b)
    ensures LoginSchema(LoginBody(b.email, b.password, b.platform, b.deviceInfo))
  {
  }

  /** The empty profile update is accepted: every field of the schema is optional. */
  lemma EmptyProfileUpdateAccepted()
    ensures UpdateProfileSchema(ProfileBody(Absent, Absent, Absent, Absent, Absent))
  {
  }
}
