/** The session provider: the signed-in user is kept in browser storage
    under "user" (serialised) and "token"; it is restored once on mount,
    the user's profile is then fetched, and login and logout write and
    clear both keys. Parsing and serialising the user are parameters; the
    profile fetch is an input. */
module AuthSession {
  import opened Wrappers
  import opened Model

  datatype AuthUser = AuthUser(id: string, name: string)

  type Storage = map<string, string>

  /** `localStorage.getItem(key)`, None for null. */
  function Item(storage: Storage, key: string): Option<string>
  {
    if key in storage then Some(storage[key]) else None
  }

  /** The storage after removing both session keys. */
  function Cleared(storage: Storage): (s: Storage)
    ensures "user" !in s && "token" !in s
    ensures forall k :: k in storage && k != "user" && k != "token" ==> k in s && s[k] == storage[k]
    ensures forall k :: k in s ==> k in storage
  {
    storage - {"user", "token"}
  }

  class AuthProvider {
    var user: Option<AuthUser>
    var authLoading: bool
    var profile: Option<Json>
    var profileLoading: bool
    var storage: Storage

    /** Mount: nobody signed in, both loading flags up. */
    constructor (storage: Storage)
      ensures this.storage == storage
      ensures user.None? && authLoading && profile.None? && profileLoading
    {
      this.storage := storage;
      user, authLoading, profile, profileLoading := None, true, None, true;
    }

    /** `isAuthenticated` */
    predicate IsAuthenticated()
      reads this
    {
      user.Some?
    }

    /** The provider shows its loading screen instead of the app. */
    predicate ShowsLoading()
      reads this
    {
      authLoading || profileLoading
    }

    /** The restore effect. With both keys stored (non-empty), the user is
        the parsed one and the storage is kept; a parse failure, or a
        missing key, removes both keys and sets no user (on mount there is
        none). Either way auth
        loading is over. `parse` is `JSON.parse` (None for `null`). */
    method Restore(parse: string -> Outcome<Option<AuthUser>>)
      modifies this
      ensures !authLoading
      ensures var u := old(Item(storage, "user"));
        var t := old(Item(storage, "token"));
        if Truthy(u) && Truthy(t) && parse(u.value).Ok? then
          user == parse(u.value).value && storage == old(storage)
        else
          user == old(user) && storage == Cleared(old(storage))
      ensures profile == old(profile) && profileLoading == old(profileLoading)
    {
      var storedUser := Item(storage, "user");
      var storedToken := Item(storage, "token");
      if Truthy(storedUser) && Truthy(storedToken) {
        match parse(storedUser.value) {
          case Ok(u) =>
            user := u;
          case Throw(_) =>
            storage := Cleared(storage);
        }
      } else {
        storage := Cleared(storage);
      }
      authLoading := false;
    }

    /** The profile effect. While auth is loading or nobody is signed in it
        only lowers the profile flag, without a fetch; otherwise the
        signed-in user's application is fetched (`fetched` is the outcome),
        a success stores it, a failure keeps the old profile, and the flag
        is lowered either way. */
    method LoadProfile(fetched: Outcome<ApiResponse<Json>>) returns (ghost requestedFor: Option<string>)
      modifies this
      ensures !profileLoading
      ensures requestedFor.Some? <==> !old(authLoading) && old(user).Some?
      ensures requestedFor.Some? ==> requestedFor.value == old(user).value.id
      ensures profile == if requestedFor.Some? && fetched.Ok? then Some(fetched.value.data) else old(profile)
      ensures user == old(user) && authLoading == old(authLoading) && storage == old(storage)
    {
      if authLoading || user.None? {
        profileLoading := false;
        return None;
      }
      requestedFor := Some(user.value.id);
      profileLoading := true;
      if fetched.Ok? {
        profile := Some(fetched.value.data);
      }
      profileLoading := false;
    }

    /** `login`: the user is signed in and both keys are written
        (`stringify` is `JSON.stringify`). */
    method Login(userData: AuthUser, token: string, stringify: AuthUser -> string)
      modifies this
      ensures user == Some(userData)
      ensures storage == old(storage)["user" := stringify(userData)]["token" := token]
      ensures authLoading == old(authLoading) && profile == old(profile) && profileLoading == old(profileLoading)
    {
      user := Some(userData);
      storage := storage["user" := stringify(userData)];
      storage := storage["token" := token];
    }

    /** `logout`: nobody is signed in and both keys are gone. */
    method Logout()
      modifies this
      ensures user.None? && !IsAuthenticated()
      ensures storage == Cleared(old(storage))
      ensures authLoading == old(authLoading) && profile == old(profile) && profileLoading == old(profileLoading)
    {
      user := None;
      storage := Cleared(storage);
    }
  }

  /** A session survives a reload: after a login with a non-empty token,
      whose serialised user parses back to the user, a fresh provider over
      the same storage restores that user; after a logout it restores
      nobody. */
  method ReloadAfterLogin(
    storage: Storage, userData: AuthUser, token: string,
    stringify: AuthUser -> string, parse: string -> Outcome<Option<AuthUser>>)
    returns (restored: Option<AuthUser>, restoredAfterLogout: Option<AuthUser>)
    requires token != "" && stringify(userData) != ""
    requires parse(stringify(userData)) == Ok(Some(userData))
    ensures restored == Some(userData)
    ensures restoredAfterLogout.None?
  {
    var first := new AuthProvider(storage);
    first.Restore(parse);
    first.Login(userData, token, stringify);
    var second := new AuthProvider(first.storage);
    assert Item(second.storage, "user") == Some(stringify(userData));
    second.Restore(parse);
    restored := second.user;
    second.Logout();
    var third := new AuthProvider(second.storage);
    third.Restore(parse);
    restoredAfterLogout := third.user;
  }
}
