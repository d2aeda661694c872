/**
 * The authentication hook: a `user` variable and an `isLoading` flag kept next to the session
 * store, updated by initialisation, login, logout, profile refresh and the once-a-minute expiry check.
 */
module UseAuth {
  import opened Wrappers
  import opened Js
  import opened Storage
  import opened Auth
  import Axios

  const SESSION_EXPIRED_MARK := "Session expired"

  /** While a token is stored, the hook's user is the user stored beside it. */
  predicate Consistent(user: Option<AuthUser>, items: map<string, string>, json: JsonCodec) {
    user.Some? && TOKEN_KEY in items ==> GetUser(items, json) == user
  }

  /** The hook's `hasRole`, on its own `user` variable. */
  function HasRole(user: Option<AuthUser>, role: string): (has: bool)
    ensures has <==> user.Some? && user.value.role == role
  {
    match user
    case Some(u) => u.role == role
    case None => false
  }

  /** The hook's `isAdmin`. */
  function IsAdmin(user: Option<AuthUser>): (admin: bool)
    ensures admin == HasRole(user, "admin")
  {
    HasRole(user, "admin")
  }

  /** What other parts of the page do to the store (a 401 on any request, an `isAuthenticated`
      call elsewhere) never break the hook's consistency with it. */
  lemma ConsistentUnderStoreEvents(user: Option<AuthUser>, items: map<string, string>, json: JsonCodec,
                                   error: Axios.HttpError, now: int)
    requires Consistent(user, items, json)
    ensures Consistent(user, Axios.AfterError(items, error), json)
    ensures Consistent(user, AfterAuthCheck(items, now), json)
  {
  }

  /** While consistent and a token is stored, the hook's role checks agree with the store's. */
  lemma RolesAgreeWithStore(user: Option<AuthUser>, items: map<string, string>, json: JsonCodec, role: string)
    requires Consistent(user, items, json) && user.Some? && TOKEN_KEY in items
    ensures HasRole(user, role) == Auth.HasRole(items, json, role)
    ensures IsAdmin(user) == Auth.IsAdmin(items, json)
  {
  }

  class AuthHook {
    var user: Option<AuthUser>
    var isLoading: bool
    const store: LocalStorage
    const json: JsonCodec

    ghost predicate Valid()
      reads this, store
    {
      Faithful(json) && Consistent(user, store.items, json)
    }

    constructor (store: LocalStorage, json: JsonCodec)
      requires Faithful(json)
      ensures Valid() && user == None && isLoading
      ensures this.store == store && this.json == json
    {
      user := None;
      isLoading := true;
      this.store := store;
      this.json := json;
    }

    /** The mount effect: take the stored user if the session is authenticated, then stop loading. */
    method Initialize(now: int)
      requires Valid()
      modifies this, store
      ensures Valid() && !isLoading
      ensures store.items == AfterAuthCheck(old(store.items), now)
      ensures Authenticated(old(store.items), now) ==> user == GetUser(old(store.items), json)
      ensures !Authenticated(old(store.items), now) ==> user == old(user)
    {
      var authenticated := Auth.IsAuthenticated(store, now);
      if authenticated {
        user := GetUser(store.items, json);
      }
      isLoading := false;
    }

    /** `login`: the response's user on success; no user and the error passed on otherwise. */
    method Login(outcome: Axios.HttpOutcome<LoginResponse>) returns (r: Result<(), string>)
      requires Valid()
      modifies this, store
      ensures Valid() && !isLoading
      ensures outcome.Ok? ==>
        && r == Success(()) && user == Some(outcome.data.user)
        && store.items == AfterLogin(old(store.items), outcome.data, json)
      ensures outcome.Failed? ==>
        && r == Failure(LoginErrorMessage(outcome.error)) && user == None
        && store.items == Axios.AfterError(old(store.items), outcome.error)
    {
      isLoading := true;
      var response := Auth.Login(store, outcome, json);
      match response {
        case Success(session) =>
          LoginThenStoredUser(old(store.items), session, json, "");
          user := Some(session.user);
          r := Success(());
        case Failure(message) =>
          user := None;
          r := Failure(message);
      }
      isLoading := false;
    }

    /** `logout`: clear the session keys and the user. */
    method Logout()
      requires Valid()
      modifies this, store
      ensures Valid() && user == None && isLoading == old(isLoading)
      ensures store.items == AfterLogout(old(store.items))
    {
      Auth.Logout(store);
      user := None;
    }

    /**
     * `refreshProfile`: without an authenticated session, forget the user and make no call;
     * otherwise take the fetched profile, or pass the error on, logging out first when the
     * message says the session expired.
     */
    method RefreshProfile(now: int, outcome: Axios.HttpOutcome<AuthUser>) returns (r: Result<(), string>)
      requires Valid()
      modifies this, store
      ensures Valid() && isLoading == old(isLoading)
      ensures !Authenticated(old(store.items), now) ==>
        r == Success(()) && user == None && store.items == AfterAuthCheck(old(store.items), now)
      ensures Authenticated(old(store.items), now) && outcome.Ok? ==>
        r == Success(()) && user == Some(outcome.data) && store.items == AfterProfile(old(store.items), outcome.data, json)
      ensures Authenticated(old(store.items), now) && outcome.Failed? && outcome.error.status == Some(401) ==>
        r == Failure(SESSION_EXPIRED) && user == None && store.items == AfterLogout(old(store.items))
      ensures Authenticated(old(store.items), now) && outcome.Failed? && outcome.error.status != Some(401) ==>
        r == Failure(PROFILE_FAILED) && user == old(user) && store.items == old(store.items)
    {
      var authenticated := Auth.IsAuthenticated(store, now);
      if !authenticated {
        user := None;
        return Success(());
      }
      var profile := Auth.GetProfile(store, outcome, json);
      match profile {
        case Success(p) =>
          user := Some(p);
          assert json.parse(json.stringify(p)) == Some(p) && json.stringify(p) != "";
          return Success(());
        case Failure(message) =>
          if message == SESSION_EXPIRED {
            assert OccursAt(message, SESSION_EXPIRED_MARK, 0);
          } else {
            assert message == PROFILE_FAILED;
            assert SESSION_EXPIRED_MARK[0] !in message;
            if Contains(message, SESSION_EXPIRED_MARK) {
              ContainsFirstChar(message, SESSION_EXPIRED_MARK);
            }
          }
          if Contains(message, SESSION_EXPIRED_MARK) {
            ghost var before := store.items;
            Logout();
            assert AfterLogout(before) == AfterLogout(old(store.items));
          }
          return Failure(message);
      }
    }

    /** The interval callback, which exists only while there is a user: log out once the store
        is no longer authenticated. */
    method CheckTokenExpiration(now: int)
      requires Valid()
      modifies this, store
      ensures Valid() && isLoading == old(isLoading)
      ensures old(user).None? ==> user == None && store.items == old(store.items)
      ensures old(user).Some? && !Authenticated(old(store.items), now) ==>
        user == None && store.items == AfterLogout(old(store.items))
      ensures old(user).Some? && Authenticated(old(store.items), now) ==>
        user == old(user) && store.items == old(store.items)
    {
      if user.None? {
        return;
      }
      var authenticated := Auth.IsAuthenticated(store, now);
      if !authenticated {
        ghost var checked := store.items;
        Logout();
        assert AfterLogout(checked) == AfterLogout(old(store.items));
      } else if IsTokenExpiringSoon(store.items, now) {
        // only a console warning in the source
      }
    }

    /** The exposed `isAuthenticated`: a user is set and the store says the session is live
        (the store is consulted, and may clear an expired session, only when a user is set). */
    method IsAuthenticatedView(now: int) returns (authenticated: bool)
      requires Valid()
      modifies store
      ensures Valid()
      ensures authenticated == (user.Some? && Authenticated(old(store.items), now))
      ensures user.None? ==> store.items == old(store.items)
      ensures user.Some? ==> store.items == AfterAuthCheck(old(store.items), now)
      ensures authenticated ==> GetUser(store.items, json) == user
    {
      if user.None? {
        return false;
      }
      authenticated := Auth.IsAuthenticated(store, now);
    }
  }
}
