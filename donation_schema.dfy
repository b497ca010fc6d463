/** The `Donation` collection's schema: every String path is trimmed when it is
    set, four of them are required, `amount` is a required number no smaller than 0,
    and the optional paths default to the empty string. */
module DonationSchema {
  import opened Js

  type Id = nat

  /** The body given to `new Donation(body)`. An absent string path is "" (its default);
      `amount` is None when it is absent or cannot be cast to a number. */
  datatype DonationBody = DonationBody(
    name: string,
    email: string,
    amount: Option<real>,
    goodsAmount: string,
    message: string,
    registrationNumber: string,
    organizationName: string,
    currentNeeds: string,
    receivedItems: string)

  /** A stored donation; `createdAt` is the timestamp the store assigns on save. */
  datatype Donation = Donation(
    id: Id,
    name: string,
    email: string,
    amount: real,
    goodsAmount: string,
    message: string,
    registrationNumber: string,
    organizationName: string,
    currentNeeds: string,
    receivedItems: string,
    createdAt: int)

  /** What a saved document satisfies: required paths non-empty, `amount >= 0`,
      every string path already trimmed. */
  predicate Conforms(d: Donation) {
    Truthy(d.name) && Truthy(d.email) && Truthy(d.registrationNumber)
    && Truthy(d.organizationName) && d.amount >= 0.0
    && IsTrimmed(d.name) && IsTrimmed(d.email) && IsTrimmed(d.goodsAmount)
    && IsTrimmed(d.message) && IsTrimmed(d.registrationNumber)
    && IsTrimmed(d.organizationName) && IsTrimmed(d.currentNeeds) && IsTrimmed(d.receivedItems)
  }

  /** The validators, which run on the trimmed values. */
  predicate Accepts(body: DonationBody) {
    Truthy(Trim(body.name)) && Truthy(Trim(body.email))
    && Truthy(Trim(body.registrationNumber)) && Truthy(Trim(body.organizationName))
    && body.amount.Some? && body.amount.value >= 0.0
  }

  /** Casting and validating a body: the trim setters run first, then the
      validators; a body that fails them is not saved. */
  function Cast(body: DonationBody, id: Id, createdAt: int): (r: Option<Donation>)
    ensures r.Some? <==> Accepts(body)
    ensures r.Some? ==> r.value.id == id && r.value.createdAt == createdAt
                        && r.value.amount == body.amount.value
    ensures r.Some? ==> r.value.name == Trim(body.name) && r.value.email == Trim(body.email)
                        && r.value.goodsAmount == Trim(body.goodsAmount)
                        && r.value.message == Trim(body.message)
                        && r.value.registrationNumber == Trim(body.registrationNumber)
                        && r.value.organizationName == Trim(body.organizationName)
                        && r.value.currentNeeds == Trim(body.currentNeeds)
                        && r.value.receivedItems == Trim(body.receivedItems)
  {
    if Accepts(body) then
      Some(Donation(id, Trim(body.name), Trim(body.email), body.amount.value,
                    Trim(body.goodsAmount), Trim(body.message), Trim(body.registrationNumber),
                    Trim(body.organizationName), Trim(body.currentNeeds),
                    Trim(body.receivedItems), createdAt))
    else None
  }

  /** Every document the cast accepts satisfies the schema. */
  lemma CastConforms(body: DonationBody, id: Id, createdAt: int)
    requires Accepts(body)
    ensures Cast(body, id, createdAt).Some? && Conforms(Cast(body, id, createdAt).value)
  {
    TrimIsTrimmed(body.name);
    TrimIsTrimmed(body.email);
    TrimIsTrimmed(body.goodsAmount);
    TrimIsTrimmed(body.message);
    TrimIsTrimmed(body.registrationNumber);
    TrimIsTrimmed(body.organizationName);
    TrimIsTrimmed(body.currentNeeds);
    TrimIsTrimmed(body.receivedItems);
  }

  /** The body that describes a stored donation. */
  function BodyOf(d: Donation): DonationBody {
    DonationBody(d.name, d.email, Some(d.amount), d.goodsAmount, d.message,
                 d.registrationNumber, d.organizationName, d.currentNeeds, d.receivedItems)
  }

  /** Trimming is idempotent: casting a stored donation again gives it back unchanged. */
  lemma RecastIsIdentity(d: Donation)
    requires Conforms(d)
    ensures Cast(BodyOf(d), d.id, d.createdAt) == Some(d)
  {
    var b := BodyOf(d);
    TrimmedIsFixed(d.name);
    TrimmedIsFixed(d.email);
    TrimmedIsFixed(d.goodsAmount);
    TrimmedIsFixed(d.message);
    TrimmedIsFixed(d.registrationNumber);
    TrimmedIsFixed(d.organizationName);
    TrimmedIsFixed(d.currentNeeds);
    TrimmedIsFixed(d.receivedItems);
    assert Accepts(b);
  }
}
