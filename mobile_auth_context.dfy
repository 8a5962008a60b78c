/**
 * src/context/AuthContext.tsx: the mobile app's authentication state, its reducer, and the
 * provider steps that log out and restore a session at start-up.
 */
module MobileAuthContext {
  import opened Wrappers
  import opened Users

  datatype AuthState = AuthState(
    user: Option<User>,
    isAuthenticated: bool,
    isLoading: bool,
    error: Option<string>,
    biometricEnabled: bool,
    firstTimeUser: bool)

  const InitialState := AuthState(None, false, true, None, false, true)

  /** `AuthAction`; `Other` is any action type the switch does not name. */
  datatype Action =
    | SetLoading(loading: bool)
    | SetError(message: Option<string>)
    | LoginSuccess(payload: User)
    | Logout
    | UpdateUser(patch: UserPatch)
    | SetBiometricEnabled(enabled: bool)
    | SetFirstTimeUser(firstTime: bool)
    | Other

  /** `authReducer` */
  function Reduce(s: AuthState, a: Action): (r: AuthState)
    ensures a.SetLoading? ==> r == s.(isLoading := a.loading)
    ensures a.SetError? ==> r.error == a.message && !r.isLoading && r.user == s.user
    ensures a.LoginSuccess? ==> r.user == Some(a.payload) && r.isAuthenticated && !r.isLoading
                                && r.error.None? && !r.firstTimeUser && r.biometricEnabled == s.biometricEnabled
    ensures a.Logout? ==> r.user.None? && !r.isAuthenticated && !r.isLoading && r.error.None?
                          && r.biometricEnabled == s.biometricEnabled && r.firstTimeUser == s.firstTimeUser
    ensures a.UpdateUser? ==> r.user.Some? == s.user.Some? && r.isAuthenticated == s.isAuthenticated
    ensures a.SetBiometricEnabled? ==> r == s.(biometricEnabled := a.enabled)
    ensures a.SetFirstTimeUser? ==> r == s.(firstTimeUser := a.firstTime)
    ensures a.Other? ==> r == s
  {
    match a
    case SetLoading(loading) => s.(isLoading := loading)
    case SetError(message) => s.(error := message, isLoading := false)
    case LoginSuccess(u) => s.(user := Some(u), isAuthenticated := true, isLoading := false, error := None, firstTimeUser := false)
    case Logout => s.(user := None, isAuthenticated := false, isLoading := false, error := None)
    case UpdateUser(patch) => s.(user := if s.user.Some? then Some(Merge(s.user.value, patch)) else None)
    case SetBiometricEnabled(enabled) => s.(biometricEnabled := enabled)
    case SetFirstTimeUser(firstTime) => s.(firstTimeUser := firstTime)
    case Other => s
  }

  /** The state claims an authenticated session exactly when it holds a user. */
  predicate Consistent(s: AuthState)
  {
    s.isAuthenticated <==> s.user.Some?
  }

  /** `useReducer` over a sequence of dispatches. */
  function Run(s: AuthState, actions: seq<Action>): AuthState
    decreases |actions|
  {
    if actions == [] then s else Run(Reduce(s, actions[0]), actions[1..])
  }

  lemma InitialConsistent()
    ensures Consistent(InitialState)
  {
  }

  /** Every dispatch sequence from the initial state keeps `isAuthenticated` tied to the user. */
  lemma {:induction false} RunConsistent(s: AuthState, actions: seq<Action>)
    requires Consistent(s)
    ensures Consistent(Run(s, actions))
    decreases |actions|
  {
    if actions != [] {
      RunConsistent(Reduce(s, actions[0]), actions[1..]);
    }
  }

  /** UPDATE_USER on a signed-out state leaves it signed out. */
  lemma UpdateWithoutUser(s: AuthState, patch: UserPatch)
    requires s.user.None?
    ensures Reduce(s, UpdateUser(patch)) == s
  {
  }

  /** The device flags survive a logout, whatever came before. */
  lemma LogoutKeepsDeviceFlags(s: AuthState, actions: seq<Action>)
    ensures var r := Run(s, actions + [Logout]);
            r.biometricEnabled == Run(s, actions).biometricEnabled
            && r.firstTimeUser == Run(s, actions).firstTimeUser
            && r.user.None? && !r.isAuthenticated
  {
    RunSnoc(s, actions, Logout);
  }

  lemma {:induction false} RunSnoc(s: AuthState, actions: seq<Action>, a: Action)
    ensures Run(s, actions + [a]) == Reduce(Run(s, actions), a)
    decreases |actions|
  {
    if actions == [] {
      assert actions + [a] == [a];
    } else {
      assert (actions + [a])[1..] == actions[1..] + [a];
      RunSnoc(Reduce(s, actions[0]), actions[1..], a);
    }
  }

  /** The tokens kept by `SecureStorageService` under its auth key. */
  datatype AuthData = AuthData(token: string, refreshToken: string)

  /** `getToken`: the stored token, with an empty one read as absent. */
  function StoredToken(data: Option<AuthData>): (r: Option<string>)
    ensures r.Some? ==> r.value != ""
  {
    if data.Some? && data.value.token != "" then Some(data.value.token) else None
  }

  /**
   * The provider: the reducer's state plus what the secure store holds, the saved auth data
   * and the two settings strings read back as flags.
   */
  class AuthProvider {
    var state: AuthState
    var authData: Option<AuthData>
    var biometricSetting: Option<string>
    var firstTimeSetting: Option<string>

    constructor(authData: Option<AuthData>, biometricSetting: Option<string>, firstTimeSetting: Option<string>)
      ensures state == InitialState
      ensures this.authData == authData && this.biometricSetting == biometricSetting
      ensures this.firstTimeSetting == firstTimeSetting
    {
      state := InitialState;
      this.authData := authData;
      this.biometricSetting := biometricSetting;
      this.firstTimeSetting := firstTimeSetting;
    }

    method Dispatch(a: Action)
      modifies this
      ensures state == Reduce(old(state), a)
      ensures authData == old(authData) && biometricSetting == old(biometricSetting)
      ensures firstTimeSetting == old(firstTimeSetting)
    {
      state := Reduce(state, a);
    }

    /**
     * `logout`: the server call never throws (the service swallows its errors) and the stored
     * auth data is cleared either way, so every logout ends signed out with the device flags kept.
     */
    method SignOut()
      modifies this
      ensures authData.None?
      ensures state.user.None? && !state.isAuthenticated && !state.isLoading && state.error.None?
      ensures state.biometricEnabled == old(state.biometricEnabled) && state.firstTimeUser == old(state.firstTimeUser)
      ensures biometricSetting == old(biometricSetting) && firstTimeSetting == old(firstTimeSetting)
    {
      Dispatch(SetLoading(true));
      authData := None;
      Dispatch(Logout);
    }

    /**
     * `checkAuthStatus` with `fetched` the outcome of the current-user request. The flags come
     * from storage ("true" enables biometrics; anything but "false" marks a first-time user).
     * With a token, a fetched user signs in and a failed fetch clears the auth data and
     * signs out; without one only the loading flag drops.
     */
    method CheckAuthStatus(fetched: Result<User, string>)
      modifies this
      ensures !state.isLoading
      ensures state.biometricEnabled == (old(biometricSetting) == Some("true"))
      ensures biometricSetting == old(biometricSetting) && firstTimeSetting == old(firstTimeSetting)
      ensures StoredToken(old(authData)).Some? && fetched.Success? ==>
                state.user == Some(fetched.value) && state.isAuthenticated && !state.firstTimeUser
                && authData == old(authData)
      ensures StoredToken(old(authData)).Some? && fetched.Failure? ==>
                state.user.None? && !state.isAuthenticated && state.error.None? && authData.None?
                && state.firstTimeUser == (old(firstTimeSetting) != Some("false"))
      ensures StoredToken(old(authData)).None? ==>
                state.user == old(state.user) && state.isAuthenticated == old(state.isAuthenticated)
                && state.firstTimeUser == (old(firstTimeSetting) != Some("false")) && authData == old(authData)
      ensures Consistent(old(state)) ==> Consistent(state)
    {
      Dispatch(SetLoading(true));
      var token := StoredToken(authData);
      Dispatch(SetBiometricEnabled(biometricSetting == Some("true")));
      Dispatch(SetFirstTimeUser(firstTimeSetting != Some("false")));
      if token.Some? {
        if fetched.Success? {
          Dispatch(LoginSuccess(fetched.value));
        } else {
          authData := None;
          Dispatch(Logout);
        }
      } else {
        Dispatch(SetLoading(false));
      }
    }
  }
}
