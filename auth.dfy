/**
 * The session store: login writes token, user and expiry under three storage keys; logout and
 * expiry remove them; the queries read them back against the current time in seconds.
 * Requests go through the shared client, so its 401 rule runs before each handler here.
 */
module Auth {
  import opened Wrappers
  import opened Js
  import opened Storage
  import Axios

  const TOKEN_KEY := "auth-token"
  const USER_KEY := "auth-user"
  const EXPIRES_KEY := "auth-expires"
  const AUTH_KEYS: set<string> := {TOKEN_KEY, USER_KEY, EXPIRES_KEY}
  /** How close to expiry a token counts as "expiring soon", in seconds. */
  const FIVE_MINUTES := 5 * 60

  const INVALID_CREDENTIALS := "Invalid email or password"
  const MISSING_CREDENTIALS := "Email and password are required"
  const LOGIN_FAILED := "Login failed. Please try again."
  const SESSION_EXPIRED := "Session expired. Please login again."
  const PROFILE_FAILED := "Failed to fetch user profile"

  datatype AuthUser = AuthUser(id: int, email: string, role: string, createdAt: string, updatedAt: string)

  /** The body of a successful login; `expiresAt` is in seconds since the epoch. */
  datatype LoginResponse = LoginResponse(token: string, user: AuthUser, expiresAt: int)

  /** `JSON.stringify` / `JSON.parse` on the stored user; `parse` yields `None` where `JSON.parse` throws. */
  datatype JsonCodec = JsonCodec(stringify: AuthUser -> string, parse: string -> Option<AuthUser>)

  /** A codec that reads back what it writes, and never writes the empty string. */
  ghost predicate Faithful(json: JsonCodec) {
    forall u :: json.stringify(u) != "" && json.parse(json.stringify(u)) == Some(u)
  }

  /** A JavaScript `Date`: a time in milliseconds, or the invalid date `new Date(NaN)`. */
  datatype JsDate = DateAt(epochMs: int) | InvalidDate

  // ---------------------------------------------------------------- queries

  /** `getToken`. */
  function GetToken(items: map<string, string>): (token: Option<string>)
    ensures token.Some? <==> TOKEN_KEY in items
    ensures token.Some? ==> token.value == items[TOKEN_KEY]
  {
    Lookup(items, TOKEN_KEY)
  }

  /** `getUser`: `None` when the key is absent, empty, or does not parse. */
  function GetUser(items: map<string, string>, json: JsonCodec): (user: Option<AuthUser>)
    ensures !Truthy(Lookup(items, USER_KEY)) ==> user == None
    ensures Truthy(Lookup(items, USER_KEY)) ==> user == json.parse(items[USER_KEY])
  {
    var userStr := Lookup(items, USER_KEY);
    if !Truthy(userStr) then None else json.parse(userStr.value)
  }

  /** `now >= parseInt(expiresStr, 10)`; a `NaN` expiry compares false. */
  predicate ExpiredAt(expiresStr: string, now: int) {
    match ParseInt(expiresStr)
    case Some(expiresAt) => now >= expiresAt
    case None => false
  }

  /** The answer of `isAuthenticated` for the storage it finds. */
  predicate Authenticated(items: map<string, string>, now: int) {
    var token := Lookup(items, TOKEN_KEY);
    var expiresStr := Lookup(items, EXPIRES_KEY);
    Truthy(token) && Truthy(expiresStr) && !ExpiredAt(expiresStr.value, now)
  }

  /** `isAuthenticated` found a token whose expiry has passed, and so clears the session. */
  predicate FoundExpired(items: map<string, string>, now: int) {
    var expiresStr := Lookup(items, EXPIRES_KEY);
    Truthy(Lookup(items, TOKEN_KEY)) && Truthy(expiresStr) && ExpiredAt(expiresStr.value, now)
  }

  /** `isTokenExpiringSoon`: an expiry is stored and is at most five minutes away (or past). */
  function IsTokenExpiringSoon(items: map<string, string>, now: int): (soon: bool)
    ensures soon <==>
      Truthy(Lookup(items, EXPIRES_KEY)) && ParseInt(items[EXPIRES_KEY]).Some? &&
      ParseInt(items[EXPIRES_KEY]).value - now <= FIVE_MINUTES
  {
    var expiresStr := Lookup(items, EXPIRES_KEY);
    if !Truthy(expiresStr) then false
    else
      match ParseInt(expiresStr.value)
      case Some(expiresAt) => expiresAt - now <= FIVE_MINUTES
      case None => false
  }

  /** `getTokenExpiration`: `None` iff no expiry is stored; seconds become milliseconds. */
  function GetTokenExpiration(items: map<string, string>): (date: Option<JsDate>)
    ensures date.None? <==> !Truthy(Lookup(items, EXPIRES_KEY))
    ensures Truthy(Lookup(items, EXPIRES_KEY)) && ParseInt(items[EXPIRES_KEY]).Some? ==>
      date == Some(DateAt(ParseInt(items[EXPIRES_KEY]).value * 1000))
    ensures Truthy(Lookup(items, EXPIRES_KEY)) && ParseInt(items[EXPIRES_KEY]).None? ==> date == Some(InvalidDate)
  {
    var expiresStr := Lookup(items, EXPIRES_KEY);
    if !Truthy(expiresStr) then None
    else
      match ParseInt(expiresStr.value)
      case Some(expiresAt) => Some(DateAt(expiresAt * 1000))
      case None => Some(InvalidDate)
  }

  /** `hasRole`: the stored user parses and has exactly this role. */
  function HasRole(items: map<string, string>, json: JsonCodec, role: string): (has: bool)
    ensures has <==> GetUser(items, json).Some? && GetUser(items, json).value.role == role
  {
    match GetUser(items, json)
    case Some(user) => user.role == role
    case None => false
  }

  /** `isAdmin`. */
  function IsAdmin(items: map<string, string>, json: JsonCodec): (admin: bool)
    ensures admin == HasRole(items, json, "admin")
  {
    HasRole(items, json, "admin")
  }

  // ---------------------------------------------------------------- storage transitions

  /** What a successful login writes: the token, the serialised user and the expiry in decimal. */
  function AfterLogin(items: map<string, string>, response: LoginResponse, json: JsonCodec): map<string, string> {
    items[TOKEN_KEY := response.token][USER_KEY := json.stringify(response.user)][EXPIRES_KEY := IntToString(response.expiresAt)]
  }

  function AfterLogout(items: map<string, string>): map<string, string> {
    items - AUTH_KEYS
  }

  function AfterProfile(items: map<string, string>, profile: AuthUser, json: JsonCodec): map<string, string> {
    items[USER_KEY := json.stringify(profile)]
  }

  /** What `isAuthenticated` leaves behind: the session cleared if it found it expired. */
  function AfterAuthCheck(items: map<string, string>, now: int): map<string, string> {
    if FoundExpired(items, now) then AfterLogout(items) else items
  }

  /** The message a failed login rejects with, by HTTP status. */
  function LoginErrorMessage(error: Axios.HttpError): (message: string)
    ensures message == INVALID_CREDENTIALS <==> error.status == Some(401)
    ensures message == MISSING_CREDENTIALS <==> error.status == Some(400)
    ensures message == LOGIN_FAILED <==> error.status != Some(401) && error.status != Some(400)
  {
    if error.status == Some(401) then INVALID_CREDENTIALS
    else if error.status == Some(400) then MISSING_CREDENTIALS
    else LOGIN_FAILED
  }

  // ---------------------------------------------------------------- operations on the storage

  /** `login`: on success store the session and return it; on failure reject with a message. */
  method Login(store: LocalStorage, outcome: Axios.HttpOutcome<LoginResponse>, json: JsonCodec)
      returns (r: Result<LoginResponse, string>)
    modifies store
    ensures outcome.Ok? ==> r == Success(outcome.data) && store.items == AfterLogin(old(store.items), outcome.data, json)
    ensures outcome.Failed? ==>
      r == Failure(LoginErrorMessage(outcome.error)) && store.items == Axios.AfterError(old(store.items), outcome.error)
  {
    var delivered := Axios.ResponseInterceptor(store, outcome);
    match delivered {
      case Ok(response) =>
        store.SetItem(TOKEN_KEY, response.token);
        store.SetItem(USER_KEY, json.stringify(response.user));
        store.SetItem(EXPIRES_KEY, IntToString(response.expiresAt));
        return Success(response);
      case Failed(error) =>
        if error.status == Some(401) {
          return Failure(INVALID_CREDENTIALS);
        }
        if error.status == Some(400) {
          return Failure(MISSING_CREDENTIALS);
        }
        return Failure(LOGIN_FAILED);
    }
  }

  /** `logout`: remove the three session keys. */
  method Logout(store: LocalStorage)
    modifies store
    ensures store.items == AfterLogout(old(store.items))
  {
    store.RemoveItem(TOKEN_KEY);
    store.RemoveItem(USER_KEY);
    store.RemoveItem(EXPIRES_KEY);
  }

  /** `getProfile`: on success refresh the stored user; a 401 ends the session. */
  method GetProfile(store: LocalStorage, outcome: Axios.HttpOutcome<AuthUser>, json: JsonCodec)
      returns (r: Result<AuthUser, string>)
    modifies store
    ensures outcome.Ok? ==> r == Success(outcome.data) && store.items == AfterProfile(old(store.items), outcome.data, json)
    ensures outcome.Failed? && outcome.error.status == Some(401) ==>
      r == Failure(SESSION_EXPIRED) && store.items == AfterLogout(old(store.items))
    ensures outcome.Failed? && outcome.error.status != Some(401) ==>
      r == Failure(PROFILE_FAILED) && store.items == old(store.items)
  {
    var delivered := Axios.ResponseInterceptor(store, outcome);
    match delivered {
      case Ok(profile) =>
        store.SetItem(USER_KEY, json.stringify(profile));
        return Success(profile);
      case Failed(error) =>
        if error.status == Some(401) {
          Logout(store);
          return Failure(SESSION_EXPIRED);
        }
        return Failure(PROFILE_FAILED);
    }
  }

  /** `isAuthenticated`: the answer for the current storage, clearing an expired session. */
  method IsAuthenticated(store: LocalStorage, now: int) returns (authenticated: bool)
    modifies store
    ensures authenticated == Authenticated(old(store.items), now)
    ensures store.items == AfterAuthCheck(old(store.items), now)
  {
    var token := store.GetItem(TOKEN_KEY);
    var expiresStr := store.GetItem(EXPIRES_KEY);
    if !Truthy(token) || !Truthy(expiresStr) {
      return false;
    }
    var expiresAt := ParseInt(expiresStr.value);
    if expiresAt.Some? && now >= expiresAt.value {
      Logout(store);
      return false;
    }
    return true;
  }

  // ---------------------------------------------------------------- properties

  /** Logout removes exactly the three session keys, leaves every other entry alone, and a second
      logout changes nothing. */
  lemma LogoutExact(items: map<string, string>, json: JsonCodec, now: int)
    ensures forall k :: k in AfterLogout(items) <==> k in items && k !in AUTH_KEYS
    ensures forall k :: k in AfterLogout(items) ==> AfterLogout(items)[k] == items[k]
    ensures AfterLogout(AfterLogout(items)) == AfterLogout(items)
    ensures !Authenticated(AfterLogout(items), now) && GetUser(AfterLogout(items), json) == None
  {
  }

  /** A successful login writes exactly the three session keys and touches nothing else. */
  lemma LoginWritesExactly(items: map<string, string>, response: LoginResponse, json: JsonCodec)
    ensures AfterLogin(items, response, json).Keys == items.Keys + AUTH_KEYS
    ensures forall k :: k in items && k !in AUTH_KEYS ==> AfterLogin(items, response, json)[k] == items[k]
    ensures AfterLogin(items, response, json)[TOKEN_KEY] == response.token
    ensures AfterLogin(items, response, json)[USER_KEY] == json.stringify(response.user)
    ensures AfterLogin(items, response, json)[EXPIRES_KEY] == IntToString(response.expiresAt)
  {
  }

  /** What the session queries read right after a login: the token and the expiry, which parses
      back to the response's expiry. */
  lemma LoginStoresReadableExpiry(items: map<string, string>, response: LoginResponse, json: JsonCodec)
    ensures Lookup(AfterLogin(items, response, json), TOKEN_KEY) == Some(response.token)
    ensures Lookup(AfterLogin(items, response, json), EXPIRES_KEY) == Some(IntToString(response.expiresAt))
    ensures IntToString(response.expiresAt) != ""
    ensures ParseInt(IntToString(response.expiresAt)) == Some(response.expiresAt)
  {
    ParseIntOfIntToString(response.expiresAt);
  }

  /** Right after a successful login, until its expiry, the session is authenticated. */
  lemma LoginThenAuthenticated(items: map<string, string>, response: LoginResponse, json: JsonCodec, now: int)
    requires response.token != "" && now < response.expiresAt
    ensures Authenticated(AfterLogin(items, response, json), now)
    ensures AfterAuthCheck(AfterLogin(items, response, json), now) == AfterLogin(items, response, json)
  {
    LoginStoresReadableExpiry(items, response, json);
    assert !ExpiredAt(IntToString(response.expiresAt), now);
  }

  /** From the expiry onward, the same session is not authenticated and the check clears it. */
  lemma LoginThenExpired(items: map<string, string>, response: LoginResponse, json: JsonCodec, now: int)
    requires response.token != "" && now >= response.expiresAt
    ensures !Authenticated(AfterLogin(items, response, json), now)
    ensures AfterAuthCheck(AfterLogin(items, response, json), now) == AfterLogout(items)
  {
    LoginStoresReadableExpiry(items, response, json);
    assert ExpiredAt(IntToString(response.expiresAt), now);
    var after := AfterLogin(items, response, json);
    assert FoundExpired(after, now);
    assert AfterLogout(after) == AfterLogout(items);
  }

  /** After login the stored user reads back as the logged-in user, as do its role checks. */
  lemma LoginThenStoredUser(items: map<string, string>, response: LoginResponse, json: JsonCodec, role: string)
    requires Faithful(json)
    ensures GetUser(AfterLogin(items, response, json), json) == Some(response.user)
    ensures HasRole(AfterLogin(items, response, json), json, role) <==> response.user.role == role
    ensures IsAdmin(AfterLogin(items, response, json), json) <==> response.user.role == "admin"
  {
    assert json.stringify(response.user) != "" && json.parse(json.stringify(response.user)) == Some(response.user);
  }

  /** After login the expiry reads back in milliseconds, and "expiring soon" means within five minutes. */
  lemma LoginThenExpiry(items: map<string, string>, response: LoginResponse, json: JsonCodec, now: int)
    ensures GetTokenExpiration(AfterLogin(items, response, json)) == Some(DateAt(response.expiresAt * 1000))
    ensures IsTokenExpiringSoon(AfterLogin(items, response, json), now) <==> response.expiresAt - now <= FIVE_MINUTES
  {
    ParseIntOfIntToString(response.expiresAt);
  }

  /** A session `isAuthenticated` would clear as expired also counts as expiring soon. */
  lemma ExpiredIsExpiringSoon(items: map<string, string>, now: int)
    requires FoundExpired(items, now)
    ensures IsTokenExpiringSoon(items, now)
    ensures !Authenticated(items, now)
    ensures AfterAuthCheck(items, now).Keys !! AUTH_KEYS
  {
  }

  /** After a 401 from any request only the token is gone: user and expiry stay, and the session
      is no longer authenticated. */
  lemma UnauthorizedEndsSession(items: map<string, string>, now: int, json: JsonCodec)
    ensures !Authenticated(Axios.AfterError(items, Axios.HttpError(Some(401))), now)
    ensures GetUser(Axios.AfterError(items, Axios.HttpError(Some(401))), json) == GetUser(items, json)
    ensures Lookup(Axios.AfterError(items, Axios.HttpError(Some(401))), EXPIRES_KEY) == Lookup(items, EXPIRES_KEY)
  {
  }

  /** The next request after login carries the new token; after logout it carries none. */
  lemma BearerFollowsSession(items: map<string, string>, response: LoginResponse, json: JsonCodec, headers: map<string, string>)
    requires response.token != ""
    ensures Axios.WithBearer(headers, AfterLogin(items, response, json))[Axios.AUTHORIZATION] == "Bearer " + response.token
    ensures Axios.WithBearer(headers, AfterLogout(items)) == headers
  {
  }

  /** A stored token always comes with a stored user and expiry: every operation keeps this. */
  predicate SessionWellFormed(items: map<string, string>) {
    TOKEN_KEY in items ==> USER_KEY in items && EXPIRES_KEY in items
  }

  lemma SessionWellFormedPreserved(items: map<string, string>, response: LoginResponse, profile: AuthUser,
                                   json: JsonCodec, error: Axios.HttpError, now: int)
    requires SessionWellFormed(items)
    ensures SessionWellFormed(AfterLogin(items, response, json))
    ensures SessionWellFormed(AfterLogout(items))
    ensures SessionWellFormed(AfterProfile(items, profile, json))
    ensures SessionWellFormed(AfterAuthCheck(items, now))
    ensures SessionWellFormed(Axios.AfterError(items, error))
  {
  }
}
