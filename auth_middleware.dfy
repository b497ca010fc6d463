/** The request gate of the backend: `protect` authenticates a request from its
    `Authorization` header and the live user record, `adminOnly` authorises it by
    role, and `adminProtect` chains the two. Each is a decision with an early exit
    at every step; token verification is an oracle from token text to its payload. */
module AuthMiddleware {
  import opened Js
  import opened Records
  import opened UserSchema
  import Jwt

  /** `req.user`: the live user document without its password path. */
  datatype SessionUser = SessionUser(
    id: Id,
    email: string,
    firstName: string,
    lastName: string,
    role: string,
    isDisabled: bool,
    isDeleted: bool,
    isEmailVerified: bool)

  /** What a middleware does with the request: call `next()` with `req.user` set, or answer with an error. */
  datatype Outcome = Next(user: SessionUser) | Reject(status: int, message: string)

  const NoToken: string := "Not authorized, no token"
  const InvalidToken: string := "Invalid token"
  const UserNotFound: string := "User not found"
  const AccountUnavailable: string := "Account is disabled or deleted"
  const NotAuthenticated: string := "Not authenticated"
  const AdminRequired: string := "Access denied. Admin privileges required."

  const BearerPrefix: string := "Bearer "

  /** The projection `.select("-password")`. */
  function WithoutPassword(u: User): SessionUser {
    SessionUser(u.id, u.email, u.firstName, u.lastName, u.role, u.isDisabled, u.isDeleted,
                u.isEmailVerified)
  }

  /** The header carries a bearer credential. */
  predicate IsBearer(header: Option<string>) {
    header.Some? && StartsWith(header.value, BearerPrefix)
  }

  /** `authorization.split(" ")[1]`; the prefix guarantees a second field. */
  function BearerToken(header: string): string
    requires StartsWith(header, BearerPrefix)
  {
    assert header == "Bearer" + [' '] + header[7..];
    SplitAtFirst("Bearer", ' ', header[7..]);
    Split(header, ' ')[1]
  }

  /** The token is the text after "Bearer " up to the next space. */
  lemma {:induction false} BearerTokenIsSecondField(header: string)
    requires StartsWith(header, BearerPrefix)
    ensures var rest := header[7..]; BearerToken(header) == rest[..IndexOf(rest, ' ')]
  {
    var rest := header[7..];
    assert header == "Bearer" + [' '] + rest;
    SplitAtFirst("Bearer", ' ', rest);
    assert BearerToken(header) == Split(rest, ' ')[0];
    SplitFirstPart(rest, ' ');
  }

  /** `protect`. The steps, in order: a bearer header; a token that verifies (an empty
      token or any failure inside the try block, a failed store read included, is
      "Invalid token"); a stored user with the token's email; that user's live flags. */
  function Protect(header: Option<string>, verify: string -> Option<Jwt.Payload>,
                   users: seq<User>, storeFails: bool): (r: Outcome)
    ensures !IsBearer(header) ==> r == Reject(401, NoToken)
    ensures IsBearer(header) ==>
              var t := BearerToken(header.value);
              (!Truthy(t) || verify(t).None? || storeFails ==> r == Reject(401, InvalidToken))
              && ((Truthy(t) && verify(t).Some? && !storeFails
                   && !HasKey(users, EmailOf, verify(t).value.email)) ==> r == Reject(401, UserNotFound))
    ensures r.Reject? ==> r.status == 401
  {
    if !IsBearer(header) then Reject(401, NoToken)
    else
      var token := BearerToken(header.value);
      if !Truthy(token) || verify(token).None? || storeFails then Reject(401, InvalidToken)
      else match FindKey(users, EmailOf, verify(token).value.email)
        case None => Reject(401, UserNotFound)
        case Some(i) =>
          if users[i].isDisabled || users[i].isDeleted then Reject(401, AccountUnavailable)
          else Next(WithoutPassword(users[i]))
  }

  /** `adminOnly`, given `req.user` as an earlier middleware left it. */
  function AdminOnly(user: Option<SessionUser>): (r: Outcome)
    ensures user.None? ==> r == Reject(401, NotAuthenticated)
    ensures user.Some? && user.value.role != "admin" ==> r == Reject(403, AdminRequired)
    ensures r.Next? <==> user.Some? && user.value.role == "admin"
    ensures r.Next? ==> r.user == user.value
  {
    if user.None? then Reject(401, NotAuthenticated)
    else if user.value.role != "admin" then Reject(403, AdminRequired)
    else Next(user.value)
  }

  /** `adminProtect = [protect, adminOnly]`: `adminOnly` sees the user `protect` set. */
  function AdminProtect(header: Option<string>, verify: string -> Option<Jwt.Payload>,
                        users: seq<User>, storeFails: bool): Outcome
  {
    match Protect(header, verify, users, storeFails)
    case Reject(status, message) => Reject(status, message)
    case Next(u) => AdminOnly(Some(u))
  }

  /** `protect` lets a request through exactly when its bearer token verifies and the
      user the token names is stored and neither disabled nor deleted; `req.user`
      is then that stored user without the password. */
  lemma ProtectAdmitsExactlyLiveUsers(header: Option<string>, verify: string -> Option<Jwt.Payload>,
                                      users: seq<User>, session: SessionUser)
    requires UniqueEmails(users)
    ensures Protect(header, verify, users, false) == Next(session) <==>
      IsBearer(header) && Truthy(BearerToken(header.value))
      && verify(BearerToken(header.value)).Some?
      && exists i :: 0 <= i < |users|
                     && users[i].email == verify(BearerToken(header.value)).value.email
                     && !users[i].isDisabled && !users[i].isDeleted
                     && session == WithoutPassword(users[i])
  {
    if IsBearer(header) {
      var token := BearerToken(header.value);
      if Truthy(token) && verify(token).Some? {
        var email := verify(token).value.email;
        var found := FindKey(users, EmailOf, email);
        if found.Some? {
          forall i | 0 <= i < |users| && users[i].email == email
            ensures i == found.value
          {
          }
        }
      }
    }
  }

  /** Only the email claim of the token matters: the role and status flags in the
      token are ignored in favour of the live record, so two tokens that verify to
      the same email get the same decision. */
  lemma StaleClaimsIgnored(header: Option<string>, verify1: string -> Option<Jwt.Payload>,
                           verify2: string -> Option<Jwt.Payload>, users: seq<User>, storeFails: bool)
    requires IsBearer(header)
    requires var t := BearerToken(header.value);
             verify1(t).Some? == verify2(t).Some?
             && (verify1(t).Some? ==> verify1(t).value.email == verify2(t).value.email)
    ensures Protect(header, verify1, users, storeFails) == Protect(header, verify2, users, storeFails)
  {
  }

  /** A user disabled or deleted after the token was issued is refused, although the
      token still verifies and still claims `isDisabled: false`. */
  lemma UnavailableUserRefused(header: Option<string>, verify: string -> Option<Jwt.Payload>,
                               users: seq<User>, i: nat)
    requires IsBearer(header) && Truthy(BearerToken(header.value))
    requires verify(BearerToken(header.value)).Some?
    requires UniqueEmails(users)
    requires i < |users| && users[i].email == verify(BearerToken(header.value)).value.email
    requires users[i].isDisabled || users[i].isDeleted
    ensures Protect(header, verify, users, false) == Reject(401, AccountUnavailable)
  {
    var found := FindKey(users, EmailOf, users[i].email);
    assert found.Some?;
  }

  /** Admin access implies that `protect` succeeded with an admin user; any refusal
      of `protect` is passed on unchanged. */
  lemma AdminProtectRequiresProtect(header: Option<string>, verify: string -> Option<Jwt.Payload>,
                                    users: seq<User>, storeFails: bool)
    ensures var r := AdminProtect(header, verify, users, storeFails);
            var p := Protect(header, verify, users, storeFails);
            (r.Next? <==> p.Next? && p.user.role == "admin")
            && (r.Next? ==> r == p)
            && (p.Reject? ==> r == p)
  {
  }
}
