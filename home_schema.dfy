/** The `Home` collection's schema (beneficiary organisations): required paths,
    the `type` enum, the two unique paths and the defaults of `picture` and `description`. */
module HomeSchema {
  import opened Js
  import opened Records

  type Id = nat

  /** A stored home document (timestamps are not modelled). */
  datatype Home = Home(
    id: Id,
    name: string,
    registrationNumber: string,
    homeType: string,
    location: string,
    contactNumber: string,
    email: string,
    picture: string,
    description: string)

  /** The values the `type` enum admits, in the schema's order. */
  const HomeTypes: seq<string> := ["Animal Center", "Elder Home", "Child Home"]

  predicate IsHomeType(t: string) {
    t in HomeTypes
  }

  /** The per-document validators: the six required paths are non-empty and `type` is in the enum. */
  predicate Conforms(h: Home) {
    Truthy(h.name) && Truthy(h.registrationNumber) && Truthy(h.homeType) && Truthy(h.location)
    && Truthy(h.contactNumber) && Truthy(h.email) && IsHomeType(h.homeType)
  }

  /** Some stored home other than `except` has this registration number. */
  predicate RegistrationTaken(homes: seq<Home>, reg: string, except: Option<Id>) {
    exists i :: 0 <= i < |homes| && homes[i].registrationNumber == reg
                && (except.None? || homes[i].id != except.value)
  }

  /** Some stored home other than `except` has this email. */
  predicate EmailTaken(homes: seq<Home>, email: string, except: Option<Id>) {
    exists i :: 0 <= i < |homes| && homes[i].email == email
                && (except.None? || homes[i].id != except.value)
  }

  function IdOf(h: Home): Id { h.id }
  function RegistrationOf(h: Home): string { h.registrationNumber }
  function EmailOf(h: Home): string { h.email }

  /** The two unique indexes, on `registrationNumber` and on `email`, and unique ids. */
  predicate Unique(homes: seq<Home>) {
    DistinctBy(homes, IdOf) && DistinctBy(homes, RegistrationOf) && DistinctBy(homes, EmailOf)
  }

  /** `new Home({...})`: `picture` and `description` default to the empty string. */
  function NewHome(id: Id, name: string, reg: string, homeType: string, location: string,
                   contact: string, email: string, picture: Option<string>,
                   description: Option<string>): (h: Home)
    ensures h.id == id && h.name == name && h.registrationNumber == reg && h.homeType == homeType
    ensures h.location == location && h.contactNumber == contact && h.email == email
    ensures h.picture == (if picture.Some? then picture.value else "")
    ensures h.description == (if description.Some? then description.value else "")
    ensures Conforms(h) <==> Truthy(name) && Truthy(reg) && Truthy(location) && Truthy(contact)
                             && Truthy(email) && homeType in HomeTypes
  {
    Home(id, name, reg, homeType, location, contact, email,
         if picture.Some? then picture.value else "",
         if description.Some? then description.value else "")
  }
}
