/**
 * The user record of lib/auth.ts: the row stored in the `users` table and the
 * `User` object the library hands back to route handlers and clients.
 */
module Users {
  import opened Wrappers

  /** Row ids are issued by the store; the model numbers them. */
  type UserId = nat

  datatype Notifications = Notifications(budgetAlerts: bool, priceAlerts: bool, shoppingReminders: bool, promotions: bool)

  datatype Privacy = Privacy(shareLocation: bool, shareUsageData: bool)

  /** `UserPreferences`; `theme` is kept as the string the client sent, so the schema can check it. */
  datatype Preferences = Preferences(currency: string, notifications: Notifications, privacy: Privacy, theme: string, language: string)

  /** The preferences `createUser` gives every new account. */
  const DefaultPreferences := Preferences(
    "CLP",
    Notifications(budgetAlerts := true, priceAlerts := true, shoppingReminders := true, promotions := false),
    Privacy(shareLocation := true, shareUsageData := false),
    "system",
    "es")

  /** A row of the `users` table; timestamps are milliseconds since the epoch. */
  datatype UserRow = UserRow(
    id: UserId,
    email: string,
    passwordHash: string,
    firstName: string,
    lastName: string,
    phone: Option<string>,
    avatar: Option<string>,
    preferences: Preferences,
    createdAt: nat,
    lastLoginAt: nat)

  /** The `User` interface: every column except `password_hash`, which the type cannot carry. */
  datatype User = User(
    id: UserId,
    email: string,
    firstName: string,
    lastName: string,
    phone: Option<string>,
    avatar: Option<string>,
    preferences: Preferences,
    createdAt: nat,
    lastLoginAt: nat)

  /** The column-to-field mapping repeated in `createUser`, `findUserById` and `updateUserProfile`. */
  function ToUser(row: UserRow): (u: User)
    ensures u.id == row.id && u.email == row.email && u.firstName == row.firstName
    ensures u.lastName == row.lastName && u.phone == row.phone && u.avatar == row.avatar
    ensures u.preferences == row.preferences && u.createdAt == row.createdAt && u.lastLoginAt == row.lastLoginAt
  {
    User(row.id, row.email, row.firstName, row.lastName, row.phone, row.avatar,
         row.preferences, row.createdAt, row.lastLoginAt)
  }

  /** The password hash is the only column the `User` object drops: rows that differ elsewhere give different users. */
  lemma ToUserForgetsOnlyHash(a: UserRow, b: UserRow)
    ensures ToUser(a) == ToUser(b) <==> a == b.(passwordHash := a.passwordHash)
  {
  }

  /**
   * A `Partial<User>` as the clients dispatch it with UPDATE_USER: `None` is a key the
   * object does not carry.
   */
  datatype UserPatch = UserPatch(
    id: Option<UserId>,
    email: Option<string>,
    firstName: Option<string>,
    lastName: Option<string>,
    phone: Option<string>,
    avatar: Option<string>,
    preferences: Option<Preferences>,
    createdAt: Option<nat>,
    lastLoginAt: Option<nat>)

  const EmptyPatch := UserPatch(None, None, None, None, None, None, None, None, None)

  function Pick<T>(patched: Option<T>, current: T): T
  {
    if patched.Some? then patched.value else current
  }

  /** A field after a spread: the patch's value when it carries the key, the old value otherwise. */
  predicate Overrides<T(==)>(patched: Option<T>, current: T, result: T)
  {
    (patched.Some? ==> result == patched.value) && (patched.None? ==> result == current)
  }

  /** The same for an optional field, whose patch value is itself the optional value. */
  predicate OverridesOptional<T(==)>(patched: Option<T>, current: Option<T>, result: Option<T>)
  {
    (patched.Some? ==> result == patched) && (patched.None? ==> result == current)
  }

  /** `{ ...user, ...patch }`: each key the patch carries overrides, the others are kept. */
  function Merge(u: User, patch: UserPatch): (r: User)
    ensures Overrides(patch.id, u.id, r.id)
    ensures Overrides(patch.email, u.email, r.email)
    ensures Overrides(patch.firstName, u.firstName, r.firstName)
    ensures Overrides(patch.lastName, u.lastName, r.lastName)
    ensures OverridesOptional(patch.phone, u.phone, r.phone)
    ensures OverridesOptional(patch.avatar, u.avatar, r.avatar)
    ensures Overrides(patch.preferences, u.preferences, r.preferences)
    ensures Overrides(patch.createdAt, u.createdAt, r.createdAt)
    ensures Overrides(patch.lastLoginAt, u.lastLoginAt, r.lastLoginAt)
  {
    User(Pick(patch.id, u.id), Pick(patch.email, u.email), Pick(patch.firstName, u.firstName),
         Pick(patch.lastName, u.lastName),
         if patch.phone.Some? then patch.phone else u.phone,
         if patch.avatar.Some? then patch.avatar else u.avatar,
         Pick(patch.preferences, u.preferences), Pick(patch.createdAt, u.createdAt),
         Pick(patch.lastLoginAt, u.lastLoginAt))
  }

  /** A patch carrying no key leaves the user as it is. */
  lemma MergeEmpty(u: User)
    ensures Merge(u, EmptyPatch) == u
  {
  }

  /** Applying the same patch twice is applying it once. */
  lemma MergeIdempotent(u: User, patch: UserPatch)
    ensures Merge(Merge(u, patch), patch) == Merge(u, patch)
  {
  }
}
