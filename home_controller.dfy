/** The home handlers of the backend over the `Home` collection: create, read by
    id, partial update and hard delete, each a fixed sequence of checks with an
    early reply, followed by one write. */
module HomeController {
  import opened Js
  import opened Records
  import opened HomeSchema

  /** The create body; an absent field is "". */
  datatype HomeBody = HomeBody(
    name: string,
    registrationNumber: string,
    homeType: string,
    location: string,
    contactNumber: string,
    email: string,
    picture: string,
    description: string)

  /** An update body: exactly the paths it names are written. */
  datatype HomePatch = HomePatch(
    name: Option<string>,
    registrationNumber: Option<string>,
    homeType: Option<string>,
    location: Option<string>,
    contactNumber: Option<string>,
    email: Option<string>,
    picture: Option<string>,
    description: Option<string>)

  /** A JSON reply: an error message, a message with the document, or the bare document. */
  datatype Reply =
    | Error(status: int, message: string)
    | Done(status: int, message: string, data: Home)
    | Found(home: Home)

  const MissingFields: string :=
    "Missing required fields: name, registrationNumber, type, location, contactNumber, email"
  const InvalidType: string := "Invalid type. Must be one of: Animal Center, Elder Home, Child Home"
  const RegistrationExists: string := "Home with this registration number already exists"
  const EmailExists: string := "Home with this email already exists"
  const OtherRegistration: string := "Another home with this registration number already exists"
  const OtherEmail: string := "Another home with this email already exists"
  const NotFound: string := "Home not found"
  const ServerError: string := "Internal server error"

  /** The create body carries all six required fields. */
  predicate HasRequired(b: HomeBody) {
    Truthy(b.name) && Truthy(b.registrationNumber) && Truthy(b.homeType) && Truthy(b.location)
    && Truthy(b.contactNumber) && Truthy(b.email)
  }

  /** A patched path passes its `required` validator: it is not set, or set non-empty. */
  predicate SetsPresent(v: Option<string>) {
    v.None? || Truthy(v.value)
  }

  /** The update validators (`runValidators: true`) on the paths the patch sets. */
  predicate PatchValid(p: HomePatch) {
    SetsPresent(p.name) && SetsPresent(p.registrationNumber) && SetsPresent(p.homeType)
    && SetsPresent(p.location) && SetsPresent(p.contactNumber) && SetsPresent(p.email)
    && (p.homeType.None? || IsHomeType(p.homeType.value))
  }

  /** The document after `findByIdAndUpdate` wrote the patch's paths. */
  function ApplyPatch(h: Home, p: HomePatch): Home {
    Home(h.id,
         if p.name.Some? then p.name.value else h.name,
         if p.registrationNumber.Some? then p.registrationNumber.value else h.registrationNumber,
         if p.homeType.Some? then p.homeType.value else h.homeType,
         if p.location.Some? then p.location.value else h.location,
         if p.contactNumber.Some? then p.contactNumber.value else h.contactNumber,
         if p.email.Some? then p.email.value else h.email,
         if p.picture.Some? then p.picture.value else h.picture,
         if p.description.Some? then p.description.value else h.description)
  }

  /** A patch that passes the update validators keeps a conforming document conforming. */
  lemma PatchKeepsConformance(h: Home, p: HomePatch)
    requires Conforms(h) && PatchValid(p)
    ensures Conforms(ApplyPatch(h, p))
  {
  }

  /** The uniqueness checks of an update exclude the document itself: with unique
      indexes, re-sending a home's own registration number and email never conflicts. */
  lemma OwnKeysNeverConflict(homes: seq<Home>, i: nat)
    requires Unique(homes) && i < |homes|
    ensures !RegistrationTaken(homes, homes[i].registrationNumber, Some(homes[i].id))
    ensures !EmailTaken(homes, homes[i].email, Some(homes[i].id))
  {
  }

  /** Writing a document whose keys no other document holds keeps the indexes unique. */
  lemma {:induction false} ReplaceKeepsUnique(homes: seq<Home>, i: nat, h: Home)
    requires Unique(homes) && i < |homes| && h.id == homes[i].id
    requires !RegistrationTaken(homes, h.registrationNumber, Some(h.id))
    requires !EmailTaken(homes, h.email, Some(h.id))
    ensures Unique(homes[i := h])
  {
    var r := homes[i := h];
    forall a, b | 0 <= a < b < |r|
      ensures IdOf(r[a]) != IdOf(r[b]) && RegistrationOf(r[a]) != RegistrationOf(r[b])
              && EmailOf(r[a]) != EmailOf(r[b])
    {
      if a != i && b != i {
        assert r[a] == homes[a] && r[b] == homes[b];
      } else if a == i {
        assert r[b] == homes[b];
        assert IdOf(homes[a]) != IdOf(homes[b]);
      } else {
        assert r[a] == homes[a];
        assert IdOf(homes[a]) != IdOf(homes[b]);
      }
    }
  }

  /** The collection invariant: every document passes the schema's validators, the
      unique indexes hold, and ids lie below the next one to be assigned. */
  predicate StoreValid(homes: seq<Home>, nextId: Id) {
    Unique(homes)
    && (forall i :: 0 <= i < |homes| ==> Conforms(homes[i]))
    && (forall i :: 0 <= i < |homes| ==> homes[i].id < nextId)
  }

  /** Writing a patch that passed the update's checks into one document keeps the invariant. */
  lemma UpdateKeepsValid(homes: seq<Home>, nextId: Id, i: nat, p: HomePatch, after: seq<Home>)
    requires StoreValid(homes, nextId) && i < |homes| && PatchValid(p)
    requires p.registrationNumber.None?
             || !RegistrationTaken(homes, p.registrationNumber.value, Some(homes[i].id))
    requires p.email.None? || !EmailTaken(homes, p.email.value, Some(homes[i].id))
    requires after == homes[i := ApplyPatch(homes[i], p)]
    ensures StoreValid(after, nextId)
  {
    var updated := ApplyPatch(homes[i], p);
    PatchKeepsConformance(homes[i], p);
    OwnKeysNeverConflict(homes, i);
    ReplaceKeepsUnique(homes, i, updated);
  }

  /** One of `updateHome`'s three 400 checks refuses the patch: a non-empty type
      outside the enum, or a non-empty registration number or email held by a
      document other than `id`. */
  predicate Conflicts(homes: seq<Home>, id: Id, patch: HomePatch) {
    var t, r, e := patch.homeType, patch.registrationNumber, patch.email;
    (t.Some? && Truthy(t.value) && !IsHomeType(t.value))
    || (r.Some? && Truthy(r.value) && RegistrationTaken(homes, r.value, Some(id)))
    || (e.Some? && Truthy(e.value) && EmailTaken(homes, e.value, Some(id)))
  }

  class HomeStore {
    var homes: seq<Home>
    var nextId: Id

    /** Every stored home passes the schema's validators, the unique indexes hold,
        and ids lie below the next one to be assigned. */
    ghost predicate Valid()
      reads this
    {
      StoreValid(homes, nextId)
    }

    constructor ()
      ensures Valid() && homes == [] && nextId == 0
    {
      homes := [];
      nextId := 0;
    }

    /** `createHome`: the required fields are checked before any store read, then the
        type, then the registration number, then the email; only when all pass is
        exactly one document appended, with the body's fields and `picture` and
        `description` falling back to "". Every refusal is a 400 that writes nothing. */
    method CreateHome(body: HomeBody) returns (reply: Reply)
      requires Valid()
      modifies this
      ensures Valid()
      ensures !HasRequired(body) ==> reply == Error(400, MissingFields)
      ensures HasRequired(body) && !IsHomeType(body.homeType) ==> reply == Error(400, InvalidType)
      ensures HasRequired(body) && IsHomeType(body.homeType)
              && RegistrationTaken(old(homes), body.registrationNumber, None)
              ==> reply == Error(400, RegistrationExists)
      ensures HasRequired(body) && IsHomeType(body.homeType)
              && !RegistrationTaken(old(homes), body.registrationNumber, None)
              && EmailTaken(old(homes), body.email, None)
              ==> reply == Error(400, EmailExists)
      ensures reply.Error? ==> reply.status == 400 && homes == old(homes) && nextId == old(nextId)
      ensures reply.Error? || reply.Done?
      ensures reply.Done? <==>
                HasRequired(body) && IsHomeType(body.homeType)
                && !RegistrationTaken(old(homes), body.registrationNumber, None)
                && !EmailTaken(old(homes), body.email, None)
      ensures reply.Done? ==>
                var h := NewHome(old(nextId), body.name, body.registrationNumber, body.homeType,
                                 body.location, body.contactNumber, body.email,
                                 Some(Or(body.picture, "")), Some(Or(body.description, "")));
                reply == Done(201, "Beneficiary organization created successfully", h)
                && homes == old(homes) + [h]
    {
      if !HasRequired(body) {
        return Error(400, MissingFields);
      }
      if !IsHomeType(body.homeType) {
        return Error(400, InvalidType);
      }
      if RegistrationTaken(homes, body.registrationNumber, None) {
        return Error(400, RegistrationExists);
      }
      if EmailTaken(homes, body.email, None) {
        return Error(400, EmailExists);
      }
      var h := NewHome(nextId, body.name, body.registrationNumber, body.homeType,
                       body.location, body.contactNumber, body.email,
                       Some(Or(body.picture, "")), Some(Or(body.description, "")));
      homes := homes + [h];
      nextId := nextId + 1;
      reply := Done(201, "Beneficiary organization created successfully", h);
    }

    /** `getHomeById`: 404 when no document has the id, else the document itself. */
    method GetHomeById(id: Id) returns (reply: Reply)
      ensures reply.Found? <==> HasKey(homes, IdOf, id)
      ensures reply.Found? ==> reply.home in homes && reply.home.id == id
      ensures !reply.Found? ==> reply == Error(404, NotFound)
    {
      var found := FindKey(homes, IdOf, id);
      if found.None? {
        return Error(404, NotFound);
      }
      reply := Found(homes[found.value]);
    }

    /** `updateHome`. In order: a non-empty `type` outside the enum is a 400; a
        non-empty registration number or email held by another document is a 400
        (the document's own values never conflict); a set path that fails its
        validator is a 500; a missing id is a 404. Only then are the patch's paths
        written, and nothing else changes. */
    method UpdateHome(id: Id, patch: HomePatch) returns (reply: Reply)
      requires Valid()
      modifies this
      ensures Valid() && nextId == old(nextId)
      ensures reply.Error? || reply.Done?
      ensures reply.Error? ==> homes == old(homes)
      ensures var t := patch.homeType;
              t.Some? && Truthy(t.value) && !IsHomeType(t.value) ==> reply == Error(400, InvalidType)
      ensures var t := patch.homeType; var r := patch.registrationNumber;
              !(t.Some? && Truthy(t.value) && !IsHomeType(t.value))
              && r.Some? && Truthy(r.value) && RegistrationTaken(old(homes), r.value, Some(id))
              ==> reply == Error(400, OtherRegistration)
      ensures var t := patch.homeType; var r := patch.registrationNumber; var e := patch.email;
              !(t.Some? && Truthy(t.value) && !IsHomeType(t.value))
              && !(r.Some? && Truthy(r.value) && RegistrationTaken(old(homes), r.value, Some(id)))
              && e.Some? && Truthy(e.value) && EmailTaken(old(homes), e.value, Some(id))
              ==> reply == Error(400, OtherEmail)
      ensures reply.Error? && reply.status == 400 ==> Conflicts(old(homes), id, patch)
      ensures !Conflicts(old(homes), id, patch) && !PatchValid(patch) ==> reply == Error(500, ServerError)
      ensures !Conflicts(old(homes), id, patch) && PatchValid(patch) && !HasKey(old(homes), IdOf, id)
              ==> reply == Error(404, NotFound)
      ensures reply.Done? <==>
                PatchValid(patch) && HasKey(old(homes), IdOf, id)
                && (patch.registrationNumber.None?
                    || !RegistrationTaken(old(homes), patch.registrationNumber.value, Some(id)))
                && (patch.email.None? || !EmailTaken(old(homes), patch.email.value, Some(id)))
      ensures reply.Done? ==>
                var i := FindKey(old(homes), IdOf, id).value;
                reply == Done(200, "Beneficiary organization updated successfully",
                              ApplyPatch(old(homes)[i], patch))
                && homes == old(homes)[i := ApplyPatch(old(homes)[i], patch)]
    {
      var t, r, e := patch.homeType, patch.registrationNumber, patch.email;
      if t.Some? && Truthy(t.value) && !IsHomeType(t.value) {
        return Error(400, InvalidType);
      }
      if r.Some? && Truthy(r.value) && RegistrationTaken(homes, r.value, Some(id)) {
        return Error(400, OtherRegistration);
      }
      if e.Some? && Truthy(e.value) && EmailTaken(homes, e.value, Some(id)) {
        return Error(400, OtherEmail);
      }
      if !PatchValid(patch) {
        return Error(500, ServerError);
      }
      var found := FindKey(homes, IdOf, id);
      if found.None? {
        return Error(404, NotFound);
      }
      var i := found.value;
      var updated := ApplyPatch(homes[i], patch);
      ghost var before := homes;
      homes := homes[i := updated];
      UpdateKeepsValid(before, nextId, i, patch, homes);
      reply := Done(200, "Beneficiary organization updated successfully", updated);
    }

    /** `deleteHome`: a hard delete. 404 when the id is absent; otherwise exactly the
        document with the id leaves the store, is returned, and the rest stay in order. */
    method DeleteHome(id: Id) returns (reply: Reply)
      requires Valid()
      modifies this
      ensures Valid() && nextId == old(nextId)
      ensures !HasKey(old(homes), IdOf, id) ==> reply == Error(404, NotFound) && homes == old(homes)
      ensures HasKey(old(homes), IdOf, id) ==>
                reply.Done? && reply.status == 200
                && reply.message == "Beneficiary organization deleted successfully"
                && reply.data in old(homes) && reply.data.id == id
                && homes == RemoveKey(old(homes), IdOf, id) && |homes| == |old(homes)| - 1
    {
      var found := FindKey(homes, IdOf, id);
      if found.None? {
        return Error(404, NotFound);
      }
      var deleted := homes[found.value];
      RemoveKeyKeepsDistinct(homes, IdOf, id, IdOf);
      RemoveKeyKeepsDistinct(homes, IdOf, id, RegistrationOf);
      RemoveKeyKeepsDistinct(homes, IdOf, id, EmailOf);
      RemoveKeyCount(homes, IdOf, id);
      homes := RemoveKey(homes, IdOf, id);
      reply := Done(200, "Beneficiary organization deleted successfully", deleted);
    }
  }
}
