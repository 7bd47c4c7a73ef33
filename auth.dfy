/** src/store/auth.ts: the mock login state. `localStorage` is a shared `Storage` object and
    `JSON.stringify` / `JSON.parse` of the user record are parameters. The login is split at
    its `await` (the simulated one-second delay): `BeginLogin` runs before it, `FinishLogin`
    after it. */
module Auth {
  import opened Wrappers
  import Text
  import Browser

  datatype User = User(id: string, email: string, name: string)

  datatype AuthState = AuthState(isAuthenticated: bool, user: Option<User>, isLoading: bool)

  datatype LoginResult = LoginSucceeded | LoginFailed(error: string)

  const UserKey: string := "user"
  const MockUserId: string := "1"
  const LoginError: string := "Invalid credentials"
  const LoggedOut: AuthState := AuthState(false, None, false)

  /** `getInitialAuthState`: authenticated iff a non-empty user entry is stored, with the
      parsed entry as the user; never loading. `parse` gives None for an entry that parses to
      null (the entry "null"), which leaves the state authenticated with no user. */
  function InitialAuthState(saved: Option<string>, parse: string -> Option<User>): (s: AuthState)
    ensures s.isAuthenticated <==> saved.Some? && saved.value != ""
    ensures s.isAuthenticated ==> s.user == parse(saved.value)
    ensures !s.isAuthenticated ==> s.user == None
    ensures !s.isLoading
  {
    if saved.Some? && saved.value != "" then AuthState(true, parse(saved.value), false)
    else AuthState(false, None, false)
  }

  /** The mock user for an email: id "1", the email, and as name the text before the first '@'. */
  function MockUser(email: string): (u: User)
    ensures u.id == MockUserId && u.email == email
    ensures |u.name| <= |email| && u.name == email[..|u.name|] && '@' !in u.name
    ensures |u.name| == |email| || email[|u.name|] == '@'
  {
    User(MockUserId, email, Text.BeforeFirst(email, '@'))
  }

  class AuthStore {
    const storage: Browser.Storage
    var state: AuthState

    /** The atom's initial value, read from the stored user entry at start-up. */
    constructor (storage: Browser.Storage, parse: string -> Option<User>)
      ensures this.storage == storage
      ensures state == InitialAuthState(storage.GetItem(UserKey), parse)
    {
      this.storage := storage;
      state := InitialAuthState(storage.GetItem(UserKey), parse);
    }

    /** `loginAtom` before the delay: only the loading flag changes, to true. */
    method BeginLogin()
      modifies this
      ensures state == old(state).(isLoading := true)
    {
      state := state.(isLoading := true);
    }

    /** `loginAtom` after the delay, for any password. The user record is written under "user",
        then the state becomes authenticated with that user. If writing to storage throws
        (`writeSucceeds` false), storage is untouched, the loading flag drops and the result
        is the failure. */
    method FinishLogin(email: string, stringify: User -> string, writeSucceeds: bool) returns (result: LoginResult)
      modifies this, storage
      ensures writeSucceeds ==>
        result == LoginSucceeded &&
        storage.items == old(storage.items)[UserKey := stringify(MockUser(email))] &&
        state == AuthState(true, Some(MockUser(email)), false)
      ensures !writeSucceeds ==>
        result == LoginFailed(LoginError) &&
        storage.items == old(storage.items) &&
        state == old(state).(isLoading := false)
    {
      var user := User(MockUserId, email, Text.BeforeFirst(email, '@'));
      if !writeSucceeds {
        state := state.(isLoading := false);
        return LoginFailed(LoginError);
      }
      storage.SetItem(UserKey, stringify(user));
      state := AuthState(true, Some(user), false);
      result := LoginSucceeded;
    }

    /** The whole login with nothing in between, for any password: success exactly when the
        storage write goes through; otherwise the state is as before, not loading. */
    method Login(email: string, password: string, stringify: User -> string, writeSucceeds: bool)
      returns (result: LoginResult)
      modifies this, storage
      ensures result == LoginSucceeded <==> writeSucceeds
      ensures writeSucceeds ==>
        storage.items == old(storage.items)[UserKey := stringify(MockUser(email))] &&
        state == AuthState(true, Some(MockUser(email)), false)
      ensures !writeSucceeds ==>
        result == LoginFailed(LoginError) &&
        storage.items == old(storage.items) &&
        state == old(state).(isLoading := false)
    {
      BeginLogin();
      result := FinishLogin(email, stringify, writeSucceeds);
    }

    /** `logoutAtom`: the stored user is removed and the state reset to logged out. */
    method Logout()
      modifies this, storage
      ensures storage.items == old(storage.items) - {UserKey}
      ensures state == LoggedOut
    {
      storage.RemoveItem(UserKey);
      state := AuthState(false, None, false);
    }
  }

  /** A login survives a reload when the serialiser round-trips: the stored entry yields the
      same authenticated state. */
  lemma LoginSurvivesReload(email: string, stringify: User -> string, parse: string -> Option<User>)
    requires stringify(MockUser(email)) != ""
    requires parse(stringify(MockUser(email))) == Some(MockUser(email))
    ensures InitialAuthState(Some(stringify(MockUser(email))), parse) == AuthState(true, Some(MockUser(email)), false)
  {
  }

  /** Login then logout, on any store and whether or not the login's write went through: no
      stored user, logged out, and a reload agrees. */
  method LoginThenLogout(store: AuthStore, email: string, password: string,
                         stringify: User -> string, parse: string -> Option<User>, writeSucceeds: bool)
    modifies store, store.storage
    ensures UserKey !in store.storage.items
    ensures store.state == LoggedOut
    ensures InitialAuthState(store.storage.GetItem(UserKey), parse) == LoggedOut
  {
    var result := store.Login(email, password, stringify, writeSucceeds);
    store.Logout();
  }
}
