/** The `User` collection's schema: which fields a stored user must carry and
    which defaults a new document receives. */
module UserSchema {
  import opened Js
  import opened Records

  type Id = nat

  /** A stored user document. `password` holds the bcrypt hash, never the plaintext. */
  datatype User = User(
    id: Id,
    email: string,
    firstName: string,
    lastName: string,
    password: string,
    role: string,
    isDisabled: bool,
    isDeleted: bool,
    isEmailVerified: bool)

  /** The role a new document gets when none is given. Roles are free strings, not an enum. */
  const DefaultRole: string := "user"

  /** Mongoose's `required` check on a String path: the value is a non-empty string. */
  predicate Present(s: string) {
    Truthy(s)
  }

  /** The per-document validators of the schema: every required path is present. */
  predicate Conforms(u: User) {
    Present(u.email) && Present(u.firstName) && Present(u.lastName)
    && Present(u.password) && Present(u.role)
  }

  function IdOf(u: User): Id { u.id }
  function EmailOf(u: User): string { u.email }

  /** Some stored user has this email. */
  predicate EmailTaken(users: seq<User>, email: string) {
    HasKey(users, EmailOf, email)
  }

  /** The unique index on `email`. */
  predicate UniqueEmails(users: seq<User>) {
    DistinctBy(users, EmailOf)
  }

  /** Document ids are unique. */
  predicate UniqueIds(users: seq<User>) {
    DistinctBy(users, IdOf)
  }

  /** `new User({...})`: the given paths, `role` defaulting to "user" when it is
      not given, and the three flags defaulting to false. */
  function NewUser(id: Id, email: string, firstName: string, lastName: string,
                   password: string, role: Option<string>): (u: User)
    ensures u.id == id && u.email == email && u.password == password
    ensures u.firstName == firstName && u.lastName == lastName
    ensures u.role == (if role.Some? then role.value else DefaultRole)
    ensures !u.isDisabled && !u.isDeleted && !u.isEmailVerified
    ensures Conforms(u) <==> Present(email) && Present(firstName) && Present(lastName)
                             && Present(password) && (role.None? || Present(role.value))
  {
    User(id, email, firstName, lastName, password,
         if role.Some? then role.value else DefaultRole, false, false, false)
  }
}
