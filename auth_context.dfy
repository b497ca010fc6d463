/** The client's session store (`AuthProvider`): it reads the payload out of the
    stored token, decides whether the token has expired, restores the session on
    mount, and logs in and out. `JSON.parse(atob(segment))` is an oracle `parse`
    from a payload segment to the payload it decodes to, absent when either call
    throws; the clock is `Date.now()` in whole milliseconds. */
module AuthContext {
  import opened Js
  import Jwt
  import UserController
  import AuthMiddleware

  /** The `user` the context exposes: the six identity claims of the token. */
  datatype ClientUser = ClientUser(
    email: string,
    firstName: string,
    lastName: string,
    role: string,
    isDisabled: bool,
    isEmailVerified: bool)

  /** What `axios.post('/api/user/login')` produced: a body with a token, or an error
      carrying the server's `message` (absent without a response) and axios's own message. */
  datatype LoginResponse =
    | Token(token: string)
    | RequestFailed(serverMessage: Option<string>, errorMessage: string)

  /** What `login` resolves to: `{ success: true, user }` or `{ success: false, message }`. */
  datatype LoginResult = LoggedIn(user: ClientUser) | LoginFailed(message: string)

  const InvalidTokenReceived: string := "Invalid token received"

  /** `decodeToken`: the second `.`-separated segment, decoded; absent when there is
      no such segment or decoding fails. */
  function DecodeToken(token: string, parse: string -> Option<Jwt.Payload>): (r: Option<Jwt.Payload>)
    ensures Jwt.PayloadSegment(token).None? ==> r.None?
    ensures Jwt.PayloadSegment(token).Some? ==> r == parse(Jwt.PayloadSegment(token).value)
  {
    match Jwt.PayloadSegment(token)
    case None => None
    case Some(segment) => parse(segment)
  }

  /** A compact token decodes to whatever its payload segment decodes to. */
  lemma DecodeCompact(header: string, payload: string, signature: string,
                      parse: string -> Option<Jwt.Payload>)
    requires '.' !in header && '.' !in payload
    ensures DecodeToken(Jwt.Compact(header, payload, signature), parse) == parse(payload)
  {
    Jwt.CompactPayloadSegment(header, payload, signature);
  }

  /** `isTokenExpired`: an undecodable token, or one whose `exp` is missing or 0, is
      expired; otherwise it is expired strictly after `exp` seconds. */
  predicate IsTokenExpired(token: string, parse: string -> Option<Jwt.Payload>, nowMs: int) {
    match DecodeToken(token, parse)
    case None => true
    case Some(p) => p.exp.None? || p.exp.value == 0 || p.exp.value * 1000 < nowMs
  }

  /** The comparison is strict: at the very millisecond of `exp` the token is still
      valid, and one millisecond later it is expired. */
  lemma ExpiryIsStrict(token: string, parse: string -> Option<Jwt.Payload>, exp: int)
    requires DecodeToken(token, parse).Some? && DecodeToken(token, parse).value.exp == Some(exp)
    requires exp != 0
    ensures !IsTokenExpired(token, parse, exp * 1000)
    ensures IsTokenExpired(token, parse, exp * 1000 + 1)
  {
  }

  /** A token that does not decode is expired at every moment. */
  lemma UndecodableIsExpired(token: string, parse: string -> Option<Jwt.Payload>, nowMs: int)
    requires DecodeToken(token, parse).None?
    ensures IsTokenExpired(token, parse, nowMs)
  {
  }

  /** A token the server issues at login, read back by the client, is valid for
      exactly one hour from its issuance and expired afterwards. */
  lemma IssuedTokenLastsOneHour(u: UserController.UserSchema.User, nowSec: nat, token: string,
                                parse: string -> Option<Jwt.Payload>, nowMs: int)
    requires DecodeToken(token, parse) == Some(UserController.ClaimsOf(u, nowSec))
    ensures IsTokenExpired(token, parse, nowMs) <==> (nowSec + 3600) * 1000 < nowMs
  {
  }

  /** The user object built from a decoded payload: exactly its six identity claims. */
  function UserOf(p: Jwt.Payload): ClientUser {
    ClientUser(p.email, p.firstName, p.lastName, p.role, p.isDisabled, p.isEmailVerified)
  }

  /** `isAdmin`: there is a user and its role is "admin". */
  predicate IsAdmin(user: Option<ClientUser>) {
    user.Some? && user.value.role == "admin"
  }

  /** The client's `isAdmin` and the server's `adminOnly` agree on a user whose login
      token the client decoded: the client shows the admin area exactly when the
      server's gate would admit that user as of the login. */
  lemma ClientAdminMatchesServer(u: UserController.UserSchema.User, nowSec: int, token: string,
                                 parse: string -> Option<Jwt.Payload>)
    requires DecodeToken(token, parse) == Some(UserController.ClaimsOf(u, nowSec))
    ensures IsAdmin(Some(UserOf(DecodeToken(token, parse).value)))
            <==> AuthMiddleware.AdminOnly(Some(AuthMiddleware.WithoutPassword(u))).Next?
  {
  }

  /** `getFullName`: "" without a user, otherwise first and last name joined by a
      space and trimmed. */
  function GetFullName(user: Option<ClientUser>): (name: string)
    ensures IsTrimmed(name)
    ensures user.None? ==> name == ""
    ensures user.Some? ==> name == Trim(user.value.firstName + " " + user.value.lastName)
  {
    if user.None? then ""
    else
      TrimIsTrimmed(user.value.firstName + " " + user.value.lastName);
      Trim(user.value.firstName + " " + user.value.lastName)
  }

  /** With both names present and already trimmed, the full name is exactly
      "first last"; the trim only matters when a name is empty or padded. */
  lemma FullNameOfTrimmedNames(u: ClientUser)
    requires Truthy(u.firstName) && Truthy(u.lastName)
    requires IsTrimmed(u.firstName) && IsTrimmed(u.lastName)
    ensures GetFullName(Some(u)) == u.firstName + " " + u.lastName
  {
    var s := u.firstName + " " + u.lastName;
    assert s[0] == u.firstName[0];
    assert s[|s| - 1] == u.lastName[|u.lastName| - 1];
    TrimmedIsFixed(s);
  }

  /** Without a last name the full name is the trimmed first name alone, with no trailing space. */
  lemma FullNameWithoutLastName(u: ClientUser)
    requires u.lastName == "" && IsTrimmed(u.firstName)
    ensures GetFullName(Some(u)) == u.firstName
  {
    assert u.firstName + " " + u.lastName == u.firstName + " ";
    TrimTrailingSpace(u.firstName);
  }

  /** Without a first name the full name is the trimmed last name alone, with no leading space. */
  lemma FullNameWithoutFirstName(u: ClientUser)
    requires u.firstName == "" && IsTrimmed(u.lastName)
    ensures GetFullName(Some(u)) == u.lastName
  {
    assert u.firstName + " " + u.lastName == " " + u.lastName;
    TrimLeadingSpace(u.lastName);
  }

  class AuthSession {
    /** The React state of the provider. */
    var user: Option<ClientUser>
    var isAuthenticated: bool
    var loading: bool
    /** `localStorage.getItem('token')`. */
    var storedToken: Option<string>
    /** `axios.defaults.headers.common['Authorization']`. */
    var authHeader: Option<string>

    /** A user is set exactly when the session is authenticated, and then requests
        carry a bearer header. */
    ghost predicate Valid()
      reads this
    {
      (isAuthenticated <==> user.Some?) && (user.Some? ==> authHeader.Some?)
    }

    /** The provider's first render: no user, loading, and whatever token the storage holds. */
    constructor (stored: Option<string>)
      ensures Valid()
      ensures user == None && !isAuthenticated && loading
      ensures storedToken == stored && authHeader == None
    {
      user := None;
      isAuthenticated := false;
      loading := true;
      storedToken := stored;
      authHeader := None;
    }

    /** `initializeAuth`: without a (non-empty) stored token nothing changes; an
        expired token is removed from storage; a live token restores its user and
        the bearer header. `loading` ends false on every path. */
    method InitializeAuth(parse: string -> Option<Jwt.Payload>, nowMs: int)
      requires Valid()
      modifies this
      ensures Valid() && !loading
      ensures old(storedToken).None? || !Truthy(old(storedToken).value) ==>
                user == old(user) && isAuthenticated == old(isAuthenticated)
                && storedToken == old(storedToken) && authHeader == old(authHeader)
      ensures old(storedToken).Some? && Truthy(old(storedToken).value)
              && IsTokenExpired(old(storedToken).value, parse, nowMs) ==>
                storedToken == None
                && user == old(user) && isAuthenticated == old(isAuthenticated)
                && authHeader == old(authHeader)
      ensures old(storedToken).Some? && Truthy(old(storedToken).value)
              && !IsTokenExpired(old(storedToken).value, parse, nowMs) ==>
                var token := old(storedToken).value;
                DecodeToken(token, parse).Some?
                && user == Some(UserOf(DecodeToken(token, parse).value)) && isAuthenticated
                && authHeader == Some("Bearer " + token) && storedToken == old(storedToken)
    {
      if storedToken.None? || !Truthy(storedToken.value) {
        loading := false;
        return;
      }
      var token := storedToken.value;
      if IsTokenExpired(token, parse, nowMs) {
        storedToken := None;
        loading := false;
        return;
      }
      var decoded := DecodeToken(token, parse);
      if decoded.Some? {
        user := Some(UserOf(decoded.value));
        isAuthenticated := true;
        authHeader := Some("Bearer " + token);
      }
      loading := false;
    }

    /** `login`, given what the request produced. A returned token is stored even
        when it does not decode; only a decodable one sets the user to its six
        claims, authenticates and sets the bearer header. A failed request leaves
        everything as it was and reports the server's message, else axios's own. */
    method Login(response: LoginResponse, parse: string -> Option<Jwt.Payload>)
        returns (result: LoginResult)
      requires Valid()
      modifies this
      ensures Valid() && loading == old(loading)
      ensures response.RequestFailed? ==>
                result == LoginFailed(OrElse(response.serverMessage, response.errorMessage))
                && user == old(user) && isAuthenticated == old(isAuthenticated)
                && storedToken == old(storedToken) && authHeader == old(authHeader)
      ensures response.Token? ==> storedToken == Some(response.token)
      ensures response.Token? && DecodeToken(response.token, parse).None? ==>
                result == LoginFailed(InvalidTokenReceived)
                && user == old(user) && isAuthenticated == old(isAuthenticated)
                && authHeader == old(authHeader)
      ensures response.Token? && DecodeToken(response.token, parse).Some? ==>
                result == LoggedIn(UserOf(DecodeToken(response.token, parse).value))
                && user == Some(result.user) && isAuthenticated
                && authHeader == Some("Bearer " + response.token)
    {
      if response.RequestFailed? {
        return LoginFailed(OrElse(response.serverMessage, response.errorMessage));
      }
      storedToken := Some(response.token);
      var decoded := DecodeToken(response.token, parse);
      if decoded.None? {
        return LoginFailed(InvalidTokenReceived);
      }
      var userData := UserOf(decoded.value);
      user := Some(userData);
      isAuthenticated := true;
      authHeader := Some("Bearer " + response.token);
      result := LoggedIn(userData);
    }

    /** `logout`: the token leaves storage and the request headers, and the session
        has no user. */
    method Logout()
      requires Valid()
      modifies this
      ensures Valid() && loading == old(loading)
      ensures storedToken == None && authHeader == None && user == None && !isAuthenticated
    {
      storedToken := None;
      authHeader := None;
      user := None;
      isAuthenticated := false;
    }
  }

  /** A login survives a reload: a fresh provider reading the stored token restores
      the same user, as long as the token has not expired. */
  method LoginThenReload(session: AuthSession, response: LoginResponse,
                         parse: string -> Option<Jwt.Payload>, nowMs: int)
      returns (result: LoginResult, reloaded: AuthSession)
    requires session.Valid()
    modifies session
    ensures result.LoggedIn? && response.Token? && !IsTokenExpired(response.token, parse, nowMs) ==>
              reloaded.isAuthenticated && reloaded.user == Some(result.user)
  {
    result := session.Login(response, parse);
    reloaded := new AuthSession(session.storedToken);
    reloaded.InitializeAuth(parse, nowMs);
  }

  /** After a logout, a reload finds no session to restore. */
  method LogoutThenReload(session: AuthSession, parse: string -> Option<Jwt.Payload>, nowMs: int)
      returns (reloaded: AuthSession)
    requires session.Valid()
    modifies session
    ensures !reloaded.isAuthenticated && reloaded.user == None && !reloaded.loading
  {
    session.Logout();
    reloaded := new AuthSession(session.storedToken);
    reloaded.InitializeAuth(parse, nowMs);
  }
}
