/**
 * context/AuthContext.tsx: the web app's authentication state, its reducer, and the provider
 * steps that keep the two browser-storage keys in step with it.
 */
module WebAuthContext {
  import opened Wrappers
  import opened Users

  datatype AuthState = AuthState(user: Option<User>, isAuthenticated: bool, isLoading: bool, error: Option<string>)

  const InitialState := AuthState(None, false, true, None)

  datatype Action =
    | SetLoading(loading: bool)
    | SetError(message: Option<string>)
    | LoginSuccess(payload: User)
    | Logout
    | UpdateUser(patch: UserPatch)
    | Other

  /** `authReducer` */
  function Reduce(s: AuthState, a: Action): (r: AuthState)
    ensures a.SetLoading? ==> r == s.(isLoading := a.loading)
    ensures a.SetError? ==> r.error == a.message && !r.isLoading && r.user == s.user
    ensures a.LoginSuccess? ==> r == AuthState(Some(a.payload), true, false, None)
    ensures a.Logout? ==> r == AuthState(None, false, false, None)
    ensures a.UpdateUser? ==> r.user.Some? == s.user.Some? && r.isAuthenticated == s.isAuthenticated
    ensures a.Other? ==> r == s
  {
    match a
    case SetLoading(loading) => s.(isLoading := loading)
    case SetError(message) => s.(error := message, isLoading := false)
    case LoginSuccess(u) => s.(user := Some(u), isAuthenticated := true, isLoading := false, error := None)
    case Logout => s.(user := None, isAuthenticated := false, isLoading := false, error := None)
    case UpdateUser(patch) => s.(user := if s.user.Some? then Some(Merge(s.user.value, patch)) else None)
    case Other => s
  }

  predicate Consistent(s: AuthState)
  {
    s.isAuthenticated <==> s.user.Some?
  }

  /** Every action keeps `isAuthenticated` tied to the presence of a user. */
  lemma ReduceConsistent(s: AuthState, a: Action)
    requires Consistent(s)
    ensures Consistent(Reduce(s, a))
  {
  }

  lemma UpdateWithoutUser(s: AuthState, patch: UserPatch)
    requires s.user.None?
    ensures Reduce(s, UpdateUser(patch)) == s
  {
  }

  const TokenKey := "smart_cart_token"
  const RefreshKey := "smart_cart_refresh_token"

  /** The error `login` reports when the thrown error has no message. */
  const LoginFailed := "Error al iniciar sesión"
  /** The error `register` reports when the thrown error has no message. */
  const RegisterFailed := "Error al crear cuenta"

  /** What a successful login or register call answers. */
  datatype Session = Session(user: User, token: string, refreshToken: string)

  /** `localStorage.getItem(key)` read as a truthy string. */
  function Stored(storage: map<string, string>, key: string): Option<string>
  {
    if key in storage && storage[key] != "" then Some(storage[key]) else None
  }

  /** The provider: reducer state plus the page's `localStorage`. */
  class AuthProvider {
    var state: AuthState
    var storage: map<string, string>

    constructor(storage: map<string, string>)
      ensures state == InitialState && this.storage == storage
    {
      state := InitialState;
      this.storage := storage;
    }

    method Dispatch(a: Action)
      modifies this
      ensures state == Reduce(old(state), a) && storage == old(storage)
    {
      state := Reduce(state, a);
    }

    /**
     * `login` (and `register`, which differs only in its `fallback` message) with `outcome`
     * the result of the API call, or the message of the error it threw. Both keys are
     * written before LOGIN_SUCCESS; on failure storage is untouched, the error is the thrown
     * message or the fallback, and the error is thrown on.
     */
    method SignIn(outcome: Result<Session, string>, fallback: string) returns (thrown: Option<string>)
      modifies this
      ensures outcome.Success? ==>
                && storage == old(storage)[TokenKey := outcome.value.token][RefreshKey := outcome.value.refreshToken]
                && state == AuthState(Some(outcome.value.user), true, false, None)
                && thrown.None?
      ensures outcome.Failure? ==>
                && storage == old(storage)
                && state == old(state).(isLoading := false, error := Some(if outcome.error != "" then outcome.error else fallback))
                && thrown == Some(outcome.error)
    {
      Dispatch(SetLoading(true));
      Dispatch(SetError(None));
      if outcome.Success? {
        storage := storage[TokenKey := outcome.value.token];
        storage := storage[RefreshKey := outcome.value.refreshToken];
        Dispatch(LoginSuccess(outcome.value.user));
        thrown := None;
      } else {
        var message := if outcome.error != "" then outcome.error else fallback;
        Dispatch(SetError(Some(message)));
        thrown := Some(outcome.error);
      }
    }

    /**
     * `logout`: whether the server call succeeds or throws, both keys are removed and the
     * state is signed out.
     */
    method SignOut()
      modifies this
      ensures storage == old(storage) - {TokenKey, RefreshKey}
      ensures state == AuthState(None, false, false, None)
    {
      Dispatch(SetLoading(true));
      // The server's answer is not consulted: the clean-up below runs in a `finally`.
      storage := storage - {TokenKey};
      storage := storage - {RefreshKey};
      Dispatch(Logout);
    }

    /**
     * `checkAuthStatus` with `fetched` the outcome of the current-user request: a stored
     * token and a fetched user sign in; a stored token and a failed fetch remove both keys
     * and sign out; no token only drops the loading flag.
     */
    method CheckAuthStatus(fetched: Result<User, string>)
      modifies this
      ensures !state.isLoading
      ensures Stored(old(storage), TokenKey).Some? && fetched.Success? ==>
                state == AuthState(Some(fetched.value), true, false, None) && storage == old(storage)
      ensures Stored(old(storage), TokenKey).Some? && fetched.Failure? ==>
                state == AuthState(None, false, false, None) && storage == old(storage) - {TokenKey, RefreshKey}
      ensures Stored(old(storage), TokenKey).None? ==>
                state == old(state).(isLoading := false) && storage == old(storage)
      ensures Consistent(old(state)) ==> Consistent(state)
    {
      Dispatch(SetLoading(true));
      var token := Stored(storage, TokenKey);
      if token.Some? {
        if fetched.Success? {
          Dispatch(LoginSuccess(fetched.value));
        } else {
          storage := storage - {TokenKey};
          storage := storage - {RefreshKey};
          Dispatch(Logout);
        }
      } else {
        Dispatch(SetLoading(false));
      }
    }
  }

  /** After a sign-in the stored tokens are the session's, so the next request carries them. */
  lemma SignInStoresSession(storage: map<string, string>, session: Session)
    requires session.token != "" && session.refreshToken != ""
    ensures var after := storage[TokenKey := session.token][RefreshKey := session.refreshToken];
            Stored(after, TokenKey) == Some(session.token) && Stored(after, RefreshKey) == Some(session.refreshToken)
  {
  }

  /** After a sign-out neither key is stored, so requests go without a bearer token. */
  lemma SignOutForgetsSession(storage: map<string, string>)
    ensures Stored(storage - {TokenKey, RefreshKey}, TokenKey).None?
    ensures Stored(storage - {TokenKey, RefreshKey}, RefreshKey).None?
  {
  }
}
