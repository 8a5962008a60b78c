/**
 * The hosted tables the auth library and the routes read and write: `users`,
 * `refresh_tokens`, `password_reset_tokens` and `user_sessions`, each a sequence
 * of rows, with the query helpers of lib/auth.ts on top.
 */
module Store {
  import opened Wrappers
  import opened Seqs
  import opened Text
  import opened Users
  import opened Validation
  import opened Tokens

  // ----------------------------------------------------------------- queries

  /** `.single()`: the row when exactly one matched, otherwise the PGRST116 error (here `None`). */
  function Single<T>(rows: seq<T>): (r: Option<T>)
    ensures r.Some? <==> |rows| == 1
    ensures r.Some? ==> r.value == rows[0]
  {
    if |rows| == 1 then Some(rows[0]) else None
  }

  /** The message the store attaches to PGRST116. */
  const NoSingleRow := "JSON object requested, multiple (or no) rows returned"

  // -------------------------------------------------------------------- rows

  datatype RefreshRow = RefreshRow(id: nat, userId: UserId, token: string, expiresAt: nat, deviceInfo: Option<RawDeviceInfo>)

  datatype ResetRow = ResetRow(id: nat, userId: UserId, token: string, expiresAt: nat, used: bool)

  datatype SessionRow = SessionRow(
    id: nat,
    userId: UserId,
    deviceId: string,
    deviceInfo: RawDeviceInfo,
    ip: Option<string>,
    userAgent: Option<string>,
    lastActivity: nat)

  /** The refresh rows the refresh route's query selects: this token, expiry still ahead. */
  function LiveRefresh(rows: seq<RefreshRow>, token: string, now: nat): seq<RefreshRow>
  {
    Filter(rows, (r: RefreshRow) => r.token == token && now < r.expiresAt)
  }

  /** The reset rows the reset route's query selects: this token, unused, expiry still ahead. */
  function UsableReset(rows: seq<ResetRow>, token: string, now: nat): seq<ResetRow>
  {
    Filter(rows, (r: ResetRow) => r.token == token && !r.used && now < r.expiresAt)
  }

  /** True when `rows` already hold a session for this user and device. */
  predicate HasSession(rows: seq<SessionRow>, userId: UserId, deviceId: string)
  {
    exists s :: s in rows && s.userId == userId && s.deviceId == deviceId
  }

  /**
   * `upsert` on (user_id, device_id): the matching rows take the new device data, address,
   * agent and activity time; with no match a row with `freshId` is appended.
   */
  function UpsertSessions(rows: seq<SessionRow>, freshId: nat, userId: UserId, device: RawDeviceInfo,
                          ip: Option<string>, userAgent: Option<string>, now: nat): (r: seq<SessionRow>)
    requires device.deviceId.Some?
    ensures HasSession(r, userId, device.deviceId.value)
    ensures forall s :: s in rows && !(s.userId == userId && s.deviceId == device.deviceId.value) ==> s in r
    ensures |r| == |rows| + (if HasSession(rows, userId, device.deviceId.value) then 0 else 1)
  {
    var deviceId := device.deviceId.value;
    if HasSession(rows, userId, deviceId) then
      var r := SetWhere(rows, (s: SessionRow) => s.userId == userId && s.deviceId == deviceId,
                        (s: SessionRow) => s.(deviceInfo := device, ip := ip, userAgent := userAgent, lastActivity := now));
      assert forall s :: s in rows && !(s.userId == userId && s.deviceId == deviceId) ==> s in r by {
        forall s | s in rows && !(s.userId == userId && s.deviceId == deviceId) ensures s in r {
          var i :| 0 <= i < |rows| && rows[i] == s;
          assert r[i] == s;
        }
      }
      var m :| m in rows && m.userId == userId && m.deviceId == deviceId;
      var i :| 0 <= i < |rows| && rows[i] == m;
      assert r[i] in r;
      r
    else
      rows + [SessionRow(freshId, userId, deviceId, device, ip, userAgent, now)]
  }

  /** The `users` table keeps `id` and `email` unique (the unique violation 23505 enforces the latter). */
  predicate UsersUnique(users: seq<UserRow>)
  {
    forall i, j :: 0 <= i < j < |users| ==> users[i].id != users[j].id && users[i].email != users[j].email
  }

  lemma {:induction false} FilterUsersUnique(users: seq<UserRow>, f: UserRow -> bool)
    requires UsersUnique(users)
    ensures UsersUnique(Filter(users, f))
  {
    if users != [] {
      var rest := Filter(users[1..], f);
      FilterUsersUnique(users[1..], f);
      if f(users[0]) {
        var r := Filter(users, f);
        assert r == [users[0]] + rest;
        forall j | 1 <= j < |r| ensures r[0].id != r[j].id && r[0].email != r[j].email {
          assert r[j] in users[1..];
          var k :| 0 <= k < |users[1..]| && users[1..][k] == r[j];
          assert users[k + 1] == r[j];
        }
      }
    }
  }

  lemma SetWhereUsersUnique(users: seq<UserRow>, f: UserRow -> bool, g: UserRow -> UserRow)
    requires UsersUnique(users)
    requires forall u :: g(u).id == u.id && g(u).email == u.email
    ensures UsersUnique(SetWhere(users, f, g))
  {
  }

  /** With unique keys, a filter on one `id` or one `email` matches at most one row. */
  lemma {:induction false} AtMostOneUser(users: seq<UserRow>, f: UserRow -> bool, id: Option<UserId>, email: Option<string>)
    requires UsersUnique(users)
    requires id.Some? || email.Some?
    requires forall u :: f(u) <==> (id.Some? ==> u.id == id.value) && (email.Some? ==> u.email == email.value)
    ensures |Filter(users, f)| <= 1
  {
    if users != [] {
      AtMostOneUser(users[1..], f, id, email);
      if f(users[0]) {
        forall x | x in users[1..] ensures !f(x) {
          var k :| 0 <= k < |users[1..]| && users[1..][k] == x;
          assert users[k + 1] == x;
        }
        FilterNone(users[1..], f);
      }
    }
  }

  // ----------------------------------------------------------------- lookups

  /** Under `UsersUnique` a user id names one row. */
  lemma SameIdSameRow(users: seq<UserRow>, a: UserRow, b: UserRow)
    requires UsersUnique(users) && a in users && b in users && a.id == b.id
    ensures a == b
  {
    var i :| 0 <= i < |users| && users[i] == a;
    var j :| 0 <= j < |users| && users[j] == b;
    if i != j {
      assert false;
    }
  }

  /**
   * `findUserByEmail`: the row whose email equals the lower-cased query, or `None`
   * (PGRST116) when no row, or more than one, matches.
   */
  function FindUserByEmail(users: seq<UserRow>, email: string): (r: Option<UserRow>)
    ensures r.Some? ==> r.value in users && r.value.email == ToLower(email)
  {
    var rows := Filter(users, (u: UserRow) => u.email == ToLower(email));
    if |rows| == 1 then assert rows[0] in rows; Some(rows[0]) else None
  }

  predicate EmailInUse(users: seq<UserRow>, email: string)
  {
    exists u :: u in users && u.email == ToLower(email)
  }

  /** Since emails are unique, the lookup misses exactly when no row holds the email. */
  lemma FindUserByEmailMisses(users: seq<UserRow>, email: string)
    requires UsersUnique(users)
    ensures FindUserByEmail(users, email).None? <==> !EmailInUse(users, email)
  {
    var f := (u: UserRow) => u.email == ToLower(email);
    AtMostOneUser(users, f, None, Some(ToLower(email)));
    if EmailInUse(users, email) {
      var u :| u in users && u.email == ToLower(email);
      assert u in Filter(users, f);
    }
  }

  /** `findUserById`: the user without its hash, or `None` when no single row has the id. */
  function FindUserById(users: seq<UserRow>, id: UserId): (r: Option<User>)
    ensures r.Some? ==> exists u :: u in users && u.id == id && r.value == ToUser(u)
  {
    var rows := Filter(users, (u: UserRow) => u.id == id);
    if |rows| == 1 then assert rows[0] in rows; Some(ToUser(rows[0])) else None
  }

  /** Since ids are unique, the lookup misses exactly when no row has the id. */
  lemma FindUserByIdMisses(users: seq<UserRow>, id: UserId)
    requires UsersUnique(users)
    ensures FindUserById(users, id).None? <==> forall u :: u in users ==> u.id != id
  {
    var f := (u: UserRow) => u.id == id;
    AtMostOneUser(users, f, Some(id), None);
    if exists u :: u in users && u.id == id {
      var u :| u in users && u.id == id;
      assert u in Filter(users, f);
    }
  }

  /** The refresh route's lookup: the single row holding `token` whose expiry is still ahead. */
  function FindRefreshToken(rows: seq<RefreshRow>, token: string, now: nat): (r: Option<RefreshRow>)
    ensures r.Some? ==> r.value in rows && r.value.token == token && now < r.value.expiresAt
    ensures r.Some? <==> |LiveRefresh(rows, token, now)| == 1
    ensures r.Some? ==> forall t :: t in rows && t.token == token && now < t.expiresAt ==> t == r.value
  {
    var live := LiveRefresh(rows, token, now);
    if |live| == 1 then assert live[0] in live; Some(live[0]) else None
  }

  /** The reset route's lookup: the single unused row holding `token` whose expiry is still ahead. */
  function FindResetToken(rows: seq<ResetRow>, token: string, now: nat): (r: Option<ResetRow>)
    ensures r.Some? ==> r.value in rows && r.value.token == token && !r.value.used && now < r.value.expiresAt
    ensures r.Some? <==> |UsableReset(rows, token, now)| == 1
    ensures r.Some? ==> forall t :: t in rows && t.token == token && !t.used && now < t.expiresAt ==> t == r.value
  {
    var usable := UsableReset(rows, token, now);
    if |usable| == 1 then assert usable[0] in usable; Some(usable[0]) else None
  }

  /** The profile fields `updateUserProfile` writes: names only when non-empty, phone and avatar whenever given. */
  function ApplyProfile(row: UserRow, b: ProfileBody): (r: UserRow)
    ensures r.id == row.id && r.email == row.email && r.passwordHash == row.passwordHash
    ensures r.createdAt == row.createdAt && r.lastLoginAt == row.lastLoginAt
    ensures r.firstName == if b.firstName.Given? && b.firstName.value != "" then b.firstName.value else row.firstName
    ensures r.lastName == if b.lastName.Given? && b.lastName.value != "" then b.lastName.value else row.lastName
    ensures r.phone == if b.phone.Given? then Some(b.phone.value) else row.phone
    ensures r.avatar == if b.avatar.Given? then Some(b.avatar.value) else row.avatar
    ensures r.preferences == if b.preferences.Given? then b.preferences.value else row.preferences
  {
    var row := if b.firstName.Given? && b.firstName.value != "" then row.(firstName := b.firstName.value) else row;
    var row := if b.lastName.Given? && b.lastName.value != "" then row.(lastName := b.lastName.value) else row;
    var row := if b.phone.Given? then row.(phone := Some(b.phone.value)) else row;
    var row := if b.avatar.Given? then row.(avatar := Some(b.avatar.value)) else row;
    if b.preferences.Given? then row.(preferences := b.preferences.value) else row
  }

  /** A profile update with no fields leaves the row as it was. */
  lemma ApplyEmptyProfile(row: UserRow)
    ensures ApplyProfile(row, ProfileBody(Absent, Absent, Absent, Absent, Absent)) == row
  {
  }

  /** Applying the same profile update twice is applying it once. */
  lemma ApplyProfileIdempotent(row: UserRow, b: ProfileBody)
    ensures ApplyProfile(ApplyProfile(row, b), b) == ApplyProfile(row, b)
  {
  }

  const EmailTaken := "El email ya está registrado"
  const CreateUserFailed := "Error al crear usuario: "
  const UpdateProfileFailed := "Error al actualizar perfil: "

  /** The row `createUser` inserts: lower-cased email, the password's hash and the default preferences. */
  function NewUserRow(id: UserId, email: string, passwordHash: string, firstName: string, lastName: string,
                      phone: Option<string>, now: nat): UserRow
  {
    UserRow(id, ToLower(email), passwordHash, firstName, lastName, phone, None, DefaultPreferences, now, now)
  }

  // --------------------------------------------------------------- the store

  /** The contents of the four tables and the id counter at one moment. */
  datatype Tables = Tables(users: seq<UserRow>, refreshTokens: seq<RefreshRow>, resetTokens: seq<ResetRow>,
                           sessions: seq<SessionRow>, nextId: nat)

  class Db {
    var users: seq<UserRow>
    var refreshTokens: seq<RefreshRow>
    var resetTokens: seq<ResetRow>
    var sessions: seq<SessionRow>
    /** The next row id the store will issue; ids are never reused. */
    var nextId: nat

    ghost predicate Valid()
      reads this
    {
      && UsersUnique(users)
      && (forall u :: u in users ==> u.id < nextId)
      && (forall r :: r in refreshTokens ==> r.id < nextId)
      && (forall r :: r in resetTokens ==> r.id < nextId)
      && (forall r :: r in sessions ==> r.id < nextId)
    }

    /** What the store holds now; two equal snapshots mean the store was left as it was. */
    function Snapshot(): (t: Tables)
      reads this
      ensures t.users == users && t.refreshTokens == refreshTokens && t.resetTokens == resetTokens
      ensures t.sessions == sessions && t.nextId == nextId
    {
      Tables(users, refreshTokens, resetTokens, sessions, nextId)
    }

    constructor ()
      ensures Valid()
      ensures users == [] && refreshTokens == [] && resetTokens == [] && sessions == []
    {
      users, refreshTokens, resetTokens, sessions, nextId := [], [], [], [], 0;
    }

    /**
     * `createUser`: inserts a row with the lower-cased email, the password's hash and the
     * default preferences, and returns it without the hash. A row already holding the
     * email is the unique violation; `storeError` is any other failure the store reports.
     */
    method CreateUser(c: Crypto, salt: nat, email: string, password: string, firstName: string, lastName: string,
                      phone: Option<string>, now: nat, storeError: Option<string>) returns (r: Result<User, string>)
      requires Valid()
      modifies this
      ensures Valid()
      ensures refreshTokens == old(refreshTokens) && resetTokens == old(resetTokens) && sessions == old(sessions)
      ensures r.Failure? ==> unchanged(this)
      ensures EmailInUse(old(users), email) ==> r == Failure(EmailTaken) && users == old(users) && nextId == old(nextId)
      ensures !EmailInUse(old(users), email) && storeError.Some? ==>
                r == Failure(CreateUserFailed + storeError.value) && users == old(users) && nextId == old(nextId)
      ensures !EmailInUse(old(users), email) && storeError.None? ==>
                var row := NewUserRow(old(nextId), email, c.hash(password, salt), firstName, lastName, phone, now);
                && users == old(users) + [row]
                && nextId == old(nextId) + 1
                && r == Success(ToUser(row))
    {
      var hashed := c.hash(password, salt);
      if EmailInUse(users, email) {
        return Failure(EmailTaken);
      }
      if storeError.Some? {
        return Failure(CreateUserFailed + storeError.value);
      }
      var row := NewUserRow(nextId, email, hashed, firstName, lastName, phone, now);
      users := users + [row];
      nextId := nextId + 1;
      r := Success(ToUser(row));
    }

    /** `updateUserLastLogin`: stamps the user's row; a missing row is no error. */
    method UpdateUserLastLogin(id: UserId, now: nat)
      requires Valid()
      modifies this
      ensures Valid()
      ensures users == SetWhere(old(users), (u: UserRow) => u.id == id, (u: UserRow) => u.(lastLoginAt := now))
      ensures refreshTokens == old(refreshTokens) && resetTokens == old(resetTokens) && sessions == old(sessions)
      ensures nextId == old(nextId)
    {
      SetWhereUsersUnique(users, (u: UserRow) => u.id == id, (u: UserRow) => u.(lastLoginAt := now));
      users := SetWhere(users, (u: UserRow) => u.id == id, (u: UserRow) => u.(lastLoginAt := now));
    }

    /**
     * `updateUserProfile`: writes only the supplied fields of the caller's row and returns
     * the updated user; when no single row has the id the store's error surfaces.
     */
    method UpdateUserProfile(id: UserId, b: ProfileBody) returns (r: Result<User, string>)
      requires Valid()
      modifies this
      ensures Valid()
      ensures users == SetWhere(old(users), (u: UserRow) => u.id == id, (u: UserRow) => ApplyProfile(u, b))
      ensures refreshTokens == old(refreshTokens) && resetTokens == old(resetTokens) && sessions == old(sessions)
      ensures nextId == old(nextId)
      ensures r.Success? <==> exists u :: u in old(users) && u.id == id
      ensures r.Success? ==> exists u :: u in old(users) && u.id == id && r.value == ToUser(ApplyProfile(u, b))
      ensures r.Failure? ==> r.error == UpdateProfileFailed + NoSingleRow
    {
      var before := users;
      SetWhereUsersUnique(users, (u: UserRow) => u.id == id, (u: UserRow) => ApplyProfile(u, b));
      users := SetWhere(users, (u: UserRow) => u.id == id, (u: UserRow) => ApplyProfile(u, b));
      var updated := FindUserById(users, id);
      FindUserByIdMisses(users, id);
      if updated.None? {
        assert forall u :: u in old(users) ==> u.id != id by {
          forall u | u in old(users) ensures u.id != id {
            var i :| 0 <= i < |old(users)| && old(users)[i] == u;
            assert users[i].id == u.id;
          }
        }
        return Failure(UpdateProfileFailed + NoSingleRow);
      }
      r := Success(updated.value);
      UpdatedRowFromBefore(before, users, id, b, updated.value);
    }

    /** `deleteUser`: removes the row with the id, if any. */
    method DeleteUser(id: UserId)
      requires Valid()
      modifies this
      ensures Valid()
      ensures users == Filter(old(users), (u: UserRow) => u.id != id)
      ensures refreshTokens == old(refreshTokens) && resetTokens == old(resetTokens) && sessions == old(sessions)
      ensures nextId == old(nextId)
    {
      FilterUsersUnique(users, (u: UserRow) => u.id != id);
      users := Filter(users, (u: UserRow) => u.id != id);
    }

    /** The reset route's `users` update: the new hash on the user's row. */
    method SetPasswordHash(id: UserId, hash: string)
      requires Valid()
      modifies this
      ensures Valid()
      ensures users == SetWhere(old(users), (u: UserRow) => u.id == id, (u: UserRow) => u.(passwordHash := hash))
      ensures refreshTokens == old(refreshTokens) && resetTokens == old(resetTokens) && sessions == old(sessions)
      ensures nextId == old(nextId)
    {
      SetWhereUsersUnique(users, (u: UserRow) => u.id == id, (u: UserRow) => u.(passwordHash := hash));
      users := SetWhere(users, (u: UserRow) => u.id == id, (u: UserRow) => u.(passwordHash := hash));
    }

    method InsertRefreshToken(userId: UserId, token: string, expiresAt: nat, deviceInfo: Option<RawDeviceInfo>)
      requires Valid()
      modifies this
      ensures Valid()
      ensures refreshTokens == old(refreshTokens) + [RefreshRow(old(nextId), userId, token, expiresAt, deviceInfo)]
      ensures users == old(users) && resetTokens == old(resetTokens) && sessions == old(sessions)
      ensures nextId == old(nextId) + 1
    {
      refreshTokens := refreshTokens + [RefreshRow(nextId, userId, token, expiresAt, deviceInfo)];
      nextId := nextId + 1;
    }

    /** The refresh route's rotation: a new token and expiry on the row with `id`, matched by id only. */
    method RotateRefreshToken(id: nat, token: string, expiresAt: nat)
      requires Valid()
      modifies this
      ensures Valid()
      ensures refreshTokens == SetWhere(old(refreshTokens), (t: RefreshRow) => t.id == id,
                                        (t: RefreshRow) => t.(token := token, expiresAt := expiresAt))
      ensures users == old(users) && resetTokens == old(resetTokens) && sessions == old(sessions)
      ensures nextId == old(nextId)
    {
      refreshTokens := SetWhere(refreshTokens, (t: RefreshRow) => t.id == id,
                                (t: RefreshRow) => t.(token := token, expiresAt := expiresAt));
      forall t | t in refreshTokens ensures t.id < nextId {
        var i :| 0 <= i < |refreshTokens| && refreshTokens[i] == t;
        assert old(refreshTokens)[i] in old(refreshTokens);
      }
    }

    method DeleteRefreshTokensWithToken(token: string)
      requires Valid()
      modifies this
      ensures Valid()
      ensures refreshTokens == Filter(old(refreshTokens), (t: RefreshRow) => t.token != token)
      ensures users == old(users) && resetTokens == old(resetTokens) && sessions == old(sessions)
      ensures nextId == old(nextId)
    {
      refreshTokens := Filter(refreshTokens, (t: RefreshRow) => t.token != token);
    }

    method DeleteRefreshTokensOfUser(userId: UserId)
      requires Valid()
      modifies this
      ensures Valid()
      ensures refreshTokens == Filter(old(refreshTokens), (t: RefreshRow) => t.userId != userId)
      ensures users == old(users) && resetTokens == old(resetTokens) && sessions == old(sessions)
      ensures nextId == old(nextId)
    {
      refreshTokens := Filter(refreshTokens, (t: RefreshRow) => t.userId != userId);
    }

    method InsertResetToken(userId: UserId, token: string, expiresAt: nat)
      requires Valid()
      modifies this
      ensures Valid()
      ensures resetTokens == old(resetTokens) + [ResetRow(old(nextId), userId, token, expiresAt, false)]
      ensures users == old(users) && refreshTokens == old(refreshTokens) && sessions == old(sessions)
      ensures nextId == old(nextId) + 1
    {
      resetTokens := resetTokens + [ResetRow(nextId, userId, token, expiresAt, false)];
      nextId := nextId + 1;
    }

    method MarkResetTokenUsed(id: nat)
      requires Valid()
      modifies this
      ensures Valid()
      ensures resetTokens == SetWhere(old(resetTokens), (t: ResetRow) => t.id == id, (t: ResetRow) => t.(used := true))
      ensures users == old(users) && refreshTokens == old(refreshTokens) && sessions == old(sessions)
      ensures nextId == old(nextId)
    {
      resetTokens := SetWhere(resetTokens, (t: ResetRow) => t.id == id, (t: ResetRow) => t.(used := true));
      forall t | t in resetTokens ensures t.id < nextId {
        var i :| 0 <= i < |resetTokens| && resetTokens[i] == t;
        assert old(resetTokens)[i] in old(resetTokens);
      }
    }

    method DeleteResetTokensOfUser(userId: UserId)
      requires Valid()
      modifies this
      ensures Valid()
      ensures resetTokens == Filter(old(resetTokens), (t: ResetRow) => t.userId != userId)
      ensures users == old(users) && refreshTokens == old(refreshTokens) && sessions == old(sessions)
      ensures nextId == old(nextId)
    {
      resetTokens := Filter(resetTokens, (t: ResetRow) => t.userId != userId);
    }

    /** An `insert` into `user_sessions`. */
    method InsertSession(userId: UserId, device: RawDeviceInfo, ip: Option<string>, userAgent: Option<string>, now: nat)
      requires Valid() && device.deviceId.Some?
      modifies this
      ensures Valid()
      ensures sessions == old(sessions) + [SessionRow(old(nextId), userId, device.deviceId.value, device, ip, userAgent, now)]
      ensures users == old(users) && refreshTokens == old(refreshTokens) && resetTokens == old(resetTokens)
      ensures nextId == old(nextId) + 1
    {
      sessions := sessions + [SessionRow(nextId, userId, device.deviceId.value, device, ip, userAgent, now)];
      nextId := nextId + 1;
    }

    /** An `upsert` into `user_sessions` on (user_id, device_id). */
    method UpsertSession(userId: UserId, device: RawDeviceInfo, ip: Option<string>, userAgent: Option<string>, now: nat)
      requires Valid() && device.deviceId.Some?
      modifies this
      ensures Valid()
      ensures sessions == UpsertSessions(old(sessions), old(nextId), userId, device, ip, userAgent, now)
      ensures nextId == old(nextId) + (if HasSession(old(sessions), userId, device.deviceId.value) then 0 else 1)
      ensures users == old(users) && refreshTokens == old(refreshTokens) && resetTokens == old(resetTokens)
    {
      var deviceId := device.deviceId.value;
      if HasSession(sessions, userId, deviceId) {
        sessions := UpsertSessions(sessions, nextId, userId, device, ip, userAgent, now);
        forall t | t in sessions ensures t.id < nextId {
          var i :| 0 <= i < |sessions| && sessions[i] == t;
          assert old(sessions)[i] in old(sessions);
        }
      } else {
        InsertSession(userId, device, ip, userAgent, now);
      }
    }

    method DeleteSessionsOfUser(userId: UserId)
      requires Valid()
      modifies this
      ensures Valid()
      ensures sessions == Filter(old(sessions), (s: SessionRow) => s.userId != userId)
      ensures users == old(users) && refreshTokens == old(refreshTokens) && resetTokens == old(resetTokens)
      ensures nextId == old(nextId)
    {
      sessions := Filter(sessions, (s: SessionRow) => s.userId != userId);
    }
  }

  lemma UpdatedRowFromBefore(before: seq<UserRow>, after: seq<UserRow>, id: UserId, b: ProfileBody, user: User)
    requires after == SetWhere(before, (u: UserRow) => u.id == id, (u: UserRow) => ApplyProfile(u, b))
    requires exists u :: u in after && u.id == id && user == ToUser(u)
    ensures exists u :: u in before && u.id == id && user == ToUser(ApplyProfile(u, b))
  {
    var u :| u in after && u.id == id && user == ToUser(u);
    var i :| 0 <= i < |after| && after[i] == u;
    assert before[i].id == id;
    assert before[i] in before;
  }
}
