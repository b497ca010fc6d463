/** The user handlers of the backend over the `User` collection: sign-up, login
    (which issues the token), read, update and hard delete. bcrypt and JWT
    signing are oracles: `hash(plaintext, cost)`, `compare(plaintext, hash)` and
    `sign(payload)`; the clock is the whole number of seconds at issuance. */
module UserController {
  import opened Js
  import opened Records
  import opened UserSchema
  import Jwt

  /** The sign-up body; an absent field is "". */
  datatype SignupBody = SignupBody(
    email: string,
    firstName: string,
    lastName: string,
    password: string,
    role: string)

  /** An update body: exactly the paths it names are written. */
  datatype UserPatch = UserPatch(
    email: Option<string>,
    firstName: Option<string>,
    lastName: Option<string>,
    password: Option<string>,
    role: Option<string>,
    isDisabled: Option<bool>,
    isDeleted: Option<bool>,
    isEmailVerified: Option<bool>)

  /** A JSON reply: HTTP status and message. */
  datatype Reply = Reply(status: int, message: string)

  /** The reply to a login: a refusal, or 200 with the signed token and the payload it carries. */
  datatype LoginReply = Refused(status: int, message: string) | Issued(token: string, payload: Jwt.Payload)

  /** The bcrypt cost factor used for every stored password. */
  const Cost: nat := 10

  /** The payload `loginUser` signs: exactly the six identity claims of the stored
      user, issued now and expiring one hour later. */
  function ClaimsOf(u: User, nowSec: int): Jwt.Payload {
    Jwt.Payload(u.email, u.firstName, u.lastName, u.role, u.isDisabled, u.isEmailVerified,
                Some(nowSec), Some(nowSec + Jwt.OneHour))
  }

  /** `updateData` after the password, when one is given and non-empty, is replaced by its hash. */
  function HashPassword(patch: UserPatch, hash: (string, nat) -> string): (r: UserPatch)
    ensures r.password.Some? <==> patch.password.Some?
    ensures patch.password.Some? && Truthy(patch.password.value)
            ==> r.password == Some(hash(patch.password.value, Cost))
    ensures !(patch.password.Some? && Truthy(patch.password.value)) ==> r == patch
    ensures r == patch.(password := r.password)
  {
    if patch.password.Some? && Truthy(patch.password.value)
    then patch.(password := Some(hash(patch.password.value, Cost)))
    else patch
  }

  /** The document after `findByIdAndUpdate` wrote the patch's paths. */
  function Apply(u: User, p: UserPatch): User {
    User(u.id,
         if p.email.Some? then p.email.value else u.email,
         if p.firstName.Some? then p.firstName.value else u.firstName,
         if p.lastName.Some? then p.lastName.value else u.lastName,
         if p.password.Some? then p.password.value else u.password,
         if p.role.Some? then p.role.value else u.role,
         if p.isDisabled.Some? then p.isDisabled.value else u.isDisabled,
         if p.isDeleted.Some? then p.isDeleted.value else u.isDeleted,
         if p.isEmailVerified.Some? then p.isEmailVerified.value else u.isEmailVerified)
  }

  class UserStore {
    var users: seq<User>
    var nextId: Id

    /** The unique index on `email`, unique ids, and ids below the next one to be assigned. */
    ghost predicate Valid()
      reads this
    {
      UniqueEmails(users) && UniqueIds(users)
      && forall i :: 0 <= i < |users| ==> users[i].id < nextId
    }

    constructor ()
      ensures Valid() && users == [] && nextId == 0
    {
      users := [];
      nextId := 0;
    }

    /** `saveUser`: the password is stored as `hash(password, 10)`; the role is the
        body's when non-empty and "user" otherwise (so a caller may pick its own role);
        the save fails with 500 when a required path is empty or the email is taken. */
    method SaveUser(body: SignupBody, hash: (string, nat) -> string) returns (reply: Reply)
      requires Valid()
      modifies this
      ensures Valid()
      ensures var u := NewUser(old(nextId), body.email, body.firstName, body.lastName,
                               hash(body.password, Cost), Some(Or(body.role, DefaultRole)));
              if Conforms(u) && !EmailTaken(old(users), body.email) then
                users == old(users) + [u] && reply == Reply(201, "User saved successfully")
              else
                users == old(users) && reply == Reply(500, "User not saved successfully")
    {
      var u := NewUser(nextId, body.email, body.firstName, body.lastName,
                       hash(body.password, Cost), Some(Or(body.role, DefaultRole)));
      if Conforms(u) && !EmailTaken(users, body.email) {
        users := users + [u];
        nextId := nextId + 1;
        reply := Reply(201, "User saved successfully");
      } else {
        reply := Reply(500, "User not saved successfully");
      }
    }

    /** `loginUser`: 404 when no user has the email, checked before the password;
        401 when the password does not match the stored hash; otherwise a token whose
        payload is exactly the stored user's six claims, expiring one hour after issuance. */
    method Login(email: string, password: string, compare: (string, string) -> bool,
                 sign: Jwt.Payload -> string, nowSec: int) returns (reply: LoginReply)
      ensures !EmailTaken(users, email) ==> reply == Refused(404, "User not found")
      ensures reply.Issued? <==> exists i :: 0 <= i < |users| && users[i].email == email
                                  && FindKey(users, EmailOf, email) == Some(i) && compare(password, users[i].password)
      ensures reply.Issued? ==> exists i :: 0 <= i < |users| && users[i].email == email
                                  && reply.payload == ClaimsOf(users[i], nowSec)
                                  && reply.token == sign(reply.payload)
      ensures reply.Refused? && EmailTaken(users, email) ==> reply == Refused(401, "Invalid password")
    {
      var found := FindKey(users, EmailOf, email);
      if found.None? {
        return Refused(404, "User not found");
      }
      var u := users[found.value];
      if !compare(password, u.password) {
        return Refused(401, "Invalid password");
      }
      var payload := ClaimsOf(u, nowSec);
      reply := Issued(sign(payload), payload);
    }

    /** `getUserById`: 404 when no document has the id, else 200 with the document. */
    method GetUserById(id: Id) returns (status: int, user: Option<User>)
      ensures user.Some? <==> HasKey(users, IdOf, id)
      ensures user.Some? ==> status == 200 && user.value in users && user.value.id == id
      ensures user.None? ==> status == 404
    {
      var found := FindKey(users, IdOf, id);
      if found.None? {
        return 404, None;
      }
      return 200, Some(users[found.value]);
    }

    /** `updateUser`: the password is re-hashed only when one is given; every other path
        of the body is written as it is. 404 when the id is absent; 500 when the new
        email belongs to another user (the unique index); else 200. */
    method UpdateUser(id: Id, patch: UserPatch, hash: (string, nat) -> string) returns (reply: Reply)
      requires Valid()
      modifies this
      ensures Valid() && nextId == old(nextId)
      ensures var data := HashPassword(patch, hash);
              match FindKey(old(users), IdOf, id)
              case None => reply == Reply(404, "User not found") && users == old(users)
              case Some(i) =>
                var updated := Apply(old(users)[i], data);
                if exists j :: 0 <= j < |old(users)| && j != i && old(users)[j].email == updated.email then
                  reply == Reply(500, "Failed to update user") && users == old(users)
                else
                  reply == Reply(200, "User updated successfully") && users == old(users)[i := updated]
    {
      var data := HashPassword(patch, hash);
      var found := FindKey(users, IdOf, id);
      if found.None? {
        return Reply(404, "User not found");
      }
      var i := found.value;
      var updated := Apply(users[i], data);
      if exists j :: 0 <= j < |users| && j != i && users[j].email == updated.email {
        return Reply(500, "Failed to update user");
      }
      users := users[i := updated];
      reply := Reply(200, "User updated successfully");
    }

    /** `deleteUser`: a hard delete. 404 when the id is absent; otherwise the document
        leaves the store and every other document stays, in order. */
    method DeleteUser(id: Id) returns (reply: Reply)
      requires Valid()
      modifies this
      ensures Valid() && nextId == old(nextId)
      ensures !HasKey(old(users), IdOf, id) ==>
                reply == Reply(404, "User not found") && users == old(users)
      ensures HasKey(old(users), IdOf, id) ==>
                reply == Reply(200, "User deleted successfully") && users == RemoveKey(old(users), IdOf, id)
                && |users| == |old(users)| - 1
      ensures forall u :: u in users ==> u.id != id
    {
      var found := FindKey(users, IdOf, id);
      if found.None? {
        return Reply(404, "User not found");
      }
      RemoveKeyKeepsDistinct(users, IdOf, id, EmailOf);
      RemoveKeyKeepsDistinct(users, IdOf, id, IdOf);
      RemoveKeyCount(users, IdOf, id);
      users := RemoveKey(users, IdOf, id);
      reply := Reply(200, "User deleted successfully");
    }
  }

  /** Right after a sign-up is saved, logging in with the same email and password
      succeeds, provided bcrypt's `compare` accepts a password against its own hash. */
  method SignupThenLogin(store: UserStore, body: SignupBody, hash: (string, nat) -> string,
                         compare: (string, string) -> bool, sign: Jwt.Payload -> string, nowSec: int)
      returns (saved: Reply, login: LoginReply)
    requires store.Valid()
    requires compare(body.password, hash(body.password, Cost))
    modifies store
    ensures saved.status == 201 ==> login.Issued? && login.payload.email == body.email
    ensures saved.status == 201 ==> login.payload.exp == Some(nowSec + 3600)
  {
    ghost var before := store.users;
    saved := store.SaveUser(body, hash);
    if saved.status == 201 {
      FindKeyAppended(before, EmailOf, store.users[|before|]);
      assert store.users[|before|].email == body.email;
    }
    login := store.Login(body.email, body.password, compare, sign, nowSec);
  }
}
