/** The donation page: five text inputs, a login check made only on submit, and a
    post to the donation route whose payload adds a fixed organisation and a needs
    summary built from the two amounts. */
module PaymentPage {
  import opened Js
  import DonationSchema
  import DonationController

  /** The form's state. */
  datatype PaymentForm = PaymentForm(
    name: string,
    email: string,
    amount: string,
    goodsAmount: string,
    message: string)

  datatype Field = Name | Email | Amount | GoodsAmount | Message

  /** The JSON posted to the donation route; every value is a string. */
  datatype Payload = Payload(
    name: string,
    email: string,
    amount: string,
    goodsAmount: string,
    message: string,
    registrationNumber: string,
    organizationName: string,
    currentNeeds: string,
    receivedItems: string)

  /** How the post ended: a response whose `data` field is present or not, or a
      failure with the server's message when the response carried one. */
  datatype Outcome = Accepted(hasData: bool) | Rejected(serverMessage: Option<string>)

  const NotLoggedIn: string := "\U{274C} You must be logged in first to donate."
  const Thanks: string := "\U{1F389} Thank you for your kind donation!"
  const SubmitFailed: string := "\U{274C} Failed to submit donation. Please try again."
  const Registration: string := "ORG001"
  const OrganizationName: string := "Sunrise Elder Home"

  const EmptyForm: PaymentForm := PaymentForm("", "", "", "", "")

  function GetField(f: PaymentForm, k: Field): string {
    match k
    case Name => f.name
    case Email => f.email
    case Amount => f.amount
    case GoodsAmount => f.goodsAmount
    case Message => f.message
  }

  /** `handleChange`: `{ ...formData, [name]: value }`. */
  function SetField(f: PaymentForm, k: Field, value: string): (r: PaymentForm)
    ensures GetField(r, k) == value
    ensures forall other :: other != k ==> GetField(r, other) == GetField(f, other)
  {
    match k
    case Name => f.(name := value)
    case Email => f.(email := value)
    case Amount => f.(amount := value)
    case GoodsAmount => f.(goodsAmount := value)
    case Message => f.(message := value)
  }

  /** The posted JSON: the five inputs as typed, the fixed organisation, and
      `Money: <amount>, Goods: <goodsAmount>` as the current needs. */
  function PayloadOf(f: PaymentForm): (p: Payload)
    ensures p.name == f.name && p.email == f.email && p.amount == f.amount
    ensures p.goodsAmount == f.goodsAmount && p.message == f.message
    ensures p.registrationNumber == Registration && p.organizationName == OrganizationName
    ensures StartsWith(p.currentNeeds, "Money: " + f.amount + ", Goods: ")
    ensures p.currentNeeds == "Money: " + f.amount + ", Goods: " + f.goodsAmount
    ensures p.receivedItems == ""
  {
    Payload(f.name, f.email, f.amount, f.goodsAmount, f.message, Registration, OrganizationName,
            "Money: " + f.amount + ", Goods: " + f.goodsAmount, "")
  }

  /** The body the donation route builds from the payload; `toNumber` is Mongoose's
      cast of the `amount` string to a Number, absent when it does not cast. */
  function BodyOf(p: Payload, toNumber: string -> Option<real>): DonationSchema.DonationBody {
    DonationSchema.DonationBody(p.name, p.email, toNumber(p.amount), p.goodsAmount, p.message,
                                p.registrationNumber, p.organizationName, p.currentNeeds,
                                p.receivedItems)
  }

  /** The fixed organisation always passes the required checks, so the server
      accepts a page's donation exactly when the name and email are not blank and
      the amount casts to a number that is not negative. */
  lemma PageDonationAccepted(f: PaymentForm, toNumber: string -> Option<real>)
    ensures DonationSchema.Accepts(BodyOf(PayloadOf(f), toNumber)) <==>
              Truthy(Trim(f.name)) && Truthy(Trim(f.email))
              && toNumber(f.amount).Some? && toNumber(f.amount).value >= 0.0
  {
    RegistrationPresent();
    OrganizationNamePresent();
  }

  /** The fixed registration number survives trimming unchanged. */
  lemma RegistrationPresent()
    ensures Trim(Registration) == Registration
  {
    assert IsTrimmed(Registration);
    TrimmedIsFixed(Registration);
  }

  /** The fixed organisation name survives trimming unchanged. */
  lemma OrganizationNamePresent()
    ensures Trim(OrganizationName) == OrganizationName
  {
    assert IsTrimmed(OrganizationName);
    TrimmedIsFixed(OrganizationName);
  }

  class DonationPage {
    var formData: PaymentForm
    var loading: bool
    var successMsg: string
    var errorMsg: string

    constructor ()
      ensures formData == EmptyForm && !loading && successMsg == "" && errorMsg == ""
    {
      formData := EmptyForm;
      loading := false;
      successMsg := "";
      errorMsg := "";
    }

    method HandleChange(k: Field, value: string)
      modifies this
      ensures formData == SetField(old(formData), k, value)
      ensures loading == old(loading) && successMsg == old(successMsg) && errorMsg == old(errorMsg)
    {
      formData := SetField(formData, k, value);
    }

    /** `handleSubmit`, given the stored token and how the post would end. Without a
        token only the error message changes and nothing is sent. Otherwise both
        messages are cleared and the payload is posted; a response carrying `data`
        shows the thanks, clears the form and goes home; a failure shows the
        server's message or the fallback. `loading` ends false. */
    method HandleSubmit(token: Option<string>, outcome: Outcome)
        returns (request: Option<Payload>, navigate: Option<string>)
      modifies this
      ensures token.None? || !Truthy(token.value) ==>
                request == None && navigate == None && errorMsg == NotLoggedIn
                && formData == old(formData) && loading == old(loading)
                && successMsg == old(successMsg)
      ensures token.Some? && Truthy(token.value) ==>
                request == Some(PayloadOf(old(formData))) && !loading
      ensures token.Some? && Truthy(token.value) && outcome == Accepted(true) ==>
                successMsg == Thanks && errorMsg == "" && formData == EmptyForm && navigate == Some("/")
      ensures token.Some? && Truthy(token.value) && outcome == Accepted(false) ==>
                successMsg == "" && errorMsg == "" && formData == old(formData) && navigate == None
      ensures token.Some? && Truthy(token.value) && outcome.Rejected? ==>
                successMsg == "" && errorMsg == OrElse(outcome.serverMessage, SubmitFailed)
                && formData == old(formData) && navigate == None
    {
      if token.None? || !Truthy(token.value) {
        errorMsg := NotLoggedIn;
        return None, None;
      }
      loading := true;
      successMsg := "";
      errorMsg := "";
      request := Some(PayloadOf(formData));
      navigate := None;
      match outcome {
        case Accepted(hasData) =>
          if hasData {
            successMsg := Thanks;
            formData := EmptyForm;
            navigate := Some("/");
          }
        case Rejected(serverMessage) =>
          errorMsg := OrElse(serverMessage, SubmitFailed);
      }
      loading := false;
    }
  }

  /** A logged-in donation from the page, end to end: the store keeps it exactly
      when the schema accepts the posted body (which `PageDonationAccepted` reduces
      to the name, email and amount typed), and the page thanks the donor exactly
      then; otherwise it shows the route's failure message. */
  method DonateThroughStore(page: DonationPage, store: DonationController.DonationStore,
                            token: string, toNumber: string -> Option<real>, now: int)
    requires Truthy(token) && store.Valid()
    modifies page, store
    ensures store.Valid()
    ensures page.successMsg == Thanks <==>
              DonationSchema.Accepts(BodyOf(PayloadOf(old(page.formData)), toNumber))
    ensures page.successMsg != Thanks ==> page.errorMsg == "Failed to create donation"
    ensures |store.donations| == |old(store.donations)| + (if page.successMsg == Thanks then 1 else 0)
  {
    var body := BodyOf(PayloadOf(page.formData), toNumber);
    var reply := store.CreateDonation(body, now);
    var outcome := if reply.Ok? then Accepted(true) else Rejected(Some(reply.message));
    var request, navigate := page.HandleSubmit(Some(token), outcome);
  }
}
