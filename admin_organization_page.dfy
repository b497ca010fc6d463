/** The admin organisation page: a form of eight text fields used both to add a
    home and to edit one, the list of homes held in page state, and the handlers
    that change them step by step. The list changes only after the server
    accepted the request. */
module AdminOrganizationPage {
  import opened Js
  import opened Records
  import opened HomeSchema
  import HomeController

  /** The form's state, one string per input. */
  datatype HomeForm = HomeForm(
    name: string,
    registrationNumber: string,
    homeType: string,
    location: string,
    contactNumber: string,
    email: string,
    picture: string,
    description: string)

  /** The `name` attribute of each input. */
  datatype Field =
    | Name | RegistrationNumber | Type | Location | ContactNumber | Email | Picture | Description

  /** How a request to the server ended: accepted with the document it returned as
      `data`, or failed with the server's message when the response carried one. */
  datatype Outcome<T> = Accepted(data: T) | Rejected(serverMessage: Option<string>)

  /** The request a handler sent. */
  datatype Request =
    | PutHome(id: Id, patch: HomeController.HomePatch)
    | PostHome(body: HomeController.HomeBody)
    | DeleteHome(id: Id)

  const NoToken: string := "Please login as admin to manage organizations"
  const Updated: string := "Organization updated successfully"
  const Added: string := "Organization added successfully"
  const SubmitFailed: string := "Failed to submit form"
  const DeleteFailed: string := "Failed to delete organization"

  /** The blank form: every field empty and the type preset to "Child Home". */
  const EmptyForm: HomeForm := HomeForm("", "", "Child Home", "", "", "", "", "")

  function GetField(f: HomeForm, k: Field): string {
    match k
    case Name => f.name
    case RegistrationNumber => f.registrationNumber
    case Type => f.homeType
    case Location => f.location
    case ContactNumber => f.contactNumber
    case Email => f.email
    case Picture => f.picture
    case Description => f.description
  }

  /** `{ ...prev, [name]: value }`. */
  function SetField(f: HomeForm, k: Field, value: string): (r: HomeForm)
    ensures GetField(r, k) == value
    ensures forall other :: other != k ==> GetField(r, other) == GetField(f, other)
  {
    match k
    case Name => f.(name := value)
    case RegistrationNumber => f.(registrationNumber := value)
    case Type => f.(homeType := value)
    case Location => f.(location := value)
    case ContactNumber => f.(contactNumber := value)
    case Email => f.(email := value)
    case Picture => f.(picture := value)
    case Description => f.(description := value)
  }

  /** The form filled from a home by `handleEdit`. */
  function FormOf(h: Home): HomeForm {
    HomeForm(h.name, h.registrationNumber, h.homeType, h.location, h.contactNumber, h.email,
             h.picture, h.description)
  }

  /** The JSON the form sends on edit: every field, so every path is written. */
  function PatchOf(f: HomeForm): HomeController.HomePatch {
    HomeController.HomePatch(Some(f.name), Some(f.registrationNumber), Some(f.homeType),
                             Some(f.location), Some(f.contactNumber), Some(f.email),
                             Some(f.picture), Some(f.description))
  }

  /** The JSON the form sends on add. */
  function BodyOf(f: HomeForm): HomeController.HomeBody {
    HomeController.HomeBody(f.name, f.registrationNumber, f.homeType, f.location,
                            f.contactNumber, f.email, f.picture, f.description)
  }

  /** Saving an edit form that was not touched writes back exactly the stored home. */
  lemma UntouchedEditRoundTrip(h: Home)
    ensures HomeController.ApplyPatch(h, PatchOf(FormOf(h))) == h
  {
  }

  /** An untouched edit form of a stored home passes the update's checks: its type is
      valid, its keys conflict with no other home, and its required fields are set. */
  lemma UntouchedEditPassesChecks(homes: seq<Home>, i: nat)
    requires Unique(homes) && i < |homes| && Conforms(homes[i])
    ensures var p := PatchOf(FormOf(homes[i]));
            HomeController.PatchValid(p)
            && !RegistrationTaken(homes, p.registrationNumber.value, Some(homes[i].id))
            && !EmailTaken(homes, p.email.value, Some(homes[i].id))
  {
    HomeController.OwnKeysNeverConflict(homes, i);
  }

  /** `h => h._id === id ? data : h`, as the replacement of every home. */
  function ReplaceWith(data: Home): Home -> Home {
    (h: Home) => data
  }

  class OrganizationAdminPage {
    var homes: seq<Home>
    var loading: bool
    var showAddForm: bool
    var editHomeId: Option<Id>
    var formData: HomeForm
    var formLoading: bool

    constructor ()
      ensures homes == [] && loading && !showAddForm && editHomeId == None
      ensures formData == EmptyForm && !formLoading
    {
      homes := [];
      loading := true;
      showAddForm := false;
      editHomeId := None;
      formData := EmptyForm;
      formLoading := false;
    }

    /** `fetchHomes`, given the list the request returned (absent when it failed). */
    method FetchHomes(response: Option<seq<Home>>)
      modifies this
      ensures !loading
      ensures homes == if response.Some? then response.value else old(homes)
      ensures showAddForm == old(showAddForm) && editHomeId == old(editHomeId)
      ensures formData == old(formData) && formLoading == old(formLoading)
    {
      loading := true;
      if response.Some? {
        homes := response.value;
      }
      loading := false;
    }

    /** `handleInputChange`: only the named field of the form changes. */
    method HandleInputChange(field: Field, value: string)
      modifies this
      ensures formData == SetField(old(formData), field, value)
      ensures homes == old(homes) && loading == old(loading) && showAddForm == old(showAddForm)
      ensures editHomeId == old(editHomeId) && formLoading == old(formLoading)
    {
      formData := SetField(formData, field, value);
    }

    /** The state after a successful submit: blank form, no home in edit, form hidden. */
    method ResetForm()
      modifies this
      ensures formData == EmptyForm && !showAddForm && editHomeId == None
      ensures homes == old(homes) && loading == old(loading) && formLoading == old(formLoading)
    {
      formData := EmptyForm;
      showAddForm := false;
      editHomeId := None;
    }

    /** `handleSubmit`. Without a token nothing is sent. With a home in edit the whole
        form is PUT and, once accepted, the returned home replaces every home with that
        id; otherwise the form is POSTed and the returned home is appended. Success
        resets the form; a failure leaves list and form alone and shows the server's
        message or the fallback. `formLoading` ends false on every path. */
    method HandleSubmit(token: Option<string>, outcome: Outcome<Home>)
        returns (request: Option<Request>, alert: string)
      modifies this
      ensures !formLoading && loading == old(loading)
      ensures token.None? || !Truthy(token.value) ==>
                request == None && alert == NoToken && homes == old(homes)
                && formData == old(formData) && showAddForm == old(showAddForm)
                && editHomeId == old(editHomeId)
      ensures token.Some? && Truthy(token.value) ==>
                request == Some(if old(editHomeId).Some?
                                then PutHome(old(editHomeId).value, PatchOf(old(formData)))
                                else PostHome(BodyOf(old(formData))))
      ensures token.Some? && Truthy(token.value) && outcome.Accepted? ==>
                formData == EmptyForm && !showAddForm && editHomeId == None
                && if old(editHomeId).Some? then
                     homes == UpdateKey(old(homes), IdOf, old(editHomeId).value, ReplaceWith(outcome.data))
                     && alert == Updated
                   else
                     homes == old(homes) + [outcome.data] && alert == Added
      ensures token.Some? && Truthy(token.value) && outcome.Rejected? ==>
                homes == old(homes) && formData == old(formData) && showAddForm == old(showAddForm)
                && editHomeId == old(editHomeId)
                && alert == OrElse(outcome.serverMessage, SubmitFailed)
    {
      formLoading := true;
      if token.None? || !Truthy(token.value) {
        formLoading := false;
        return None, NoToken;
      }
      if editHomeId.Some? {
        request := Some(PutHome(editHomeId.value, PatchOf(formData)));
      } else {
        request := Some(PostHome(BodyOf(formData)));
      }
      if outcome.Rejected? {
        alert := OrElse(outcome.serverMessage, SubmitFailed);
      } else {
        if editHomeId.Some? {
          homes := UpdateKey(homes, IdOf, editHomeId.value, ReplaceWith(outcome.data));
          alert := Updated;
        } else {
          homes := homes + [outcome.data];
          alert := Added;
        }
        ResetForm();
      }
      formLoading := false;
    }

    /** `handleDelete`: declining the confirmation sends nothing and changes nothing;
        otherwise the delete is sent and, once accepted, the homes with the id leave
        the list. */
    method HandleDelete(id: Id, confirmed: bool, del: Outcome<()>)
        returns (request: Option<Request>, alert: Option<string>)
      modifies this
      ensures formData == old(formData) && editHomeId == old(editHomeId)
      ensures showAddForm == old(showAddForm) && formLoading == old(formLoading)
      ensures loading == old(loading)
      ensures !confirmed ==> request == None && alert == None && homes == old(homes)
      ensures confirmed ==> request == Some(DeleteHome(id))
      ensures confirmed && del.Accepted? ==> homes == RemoveKey(old(homes), IdOf, id) && alert == None
      ensures confirmed && del.Rejected? ==>
                homes == old(homes) && alert == Some(OrElse(del.serverMessage, DeleteFailed))
    {
      if !confirmed {
        return None, None;
      }
      request := Some(DeleteHome(id));
      if del.Rejected? {
        return request, Some(OrElse(del.serverMessage, DeleteFailed));
      }
      homes := RemoveKey(homes, IdOf, id);
      alert := None;
    }

    /** `handleEdit`: the form holds the home's eight fields, the home is in edit and
        the form is shown. */
    method HandleEdit(h: Home)
      modifies this
      ensures formData == FormOf(h) && editHomeId == Some(h.id) && showAddForm
      ensures homes == old(homes) && loading == old(loading) && formLoading == old(formLoading)
    {
      formData := FormOf(h);
      editHomeId := Some(h.id);
      showAddForm := true;
    }

    /** The "Add New Organization"/"Cancel" button: the form's visibility flips and
        the form is blank with no home in edit. */
    method ToggleAddForm()
      modifies this
      ensures showAddForm == !old(showAddForm) && editHomeId == None && formData == EmptyForm
      ensures homes == old(homes) && loading == old(loading) && formLoading == old(formLoading)
    {
      showAddForm := !showAddForm;
      editHomeId := None;
      formData := EmptyForm;
    }
  }

  /** An edit replaces the edited home in place: the list keeps its length, the
      position of the edited home holds the returned document and every other
      position is unchanged. */
  lemma EditReplacesInPlace(homes: seq<Home>, id: Id, data: Home)
    ensures var after := UpdateKey(homes, IdOf, id, ReplaceWith(data));
            |after| == |homes|
            && forall i :: 0 <= i < |homes| ==>
                 after[i] == (if homes[i].id == id then data else homes[i])
  {
  }

  /** Editing a home and submitting the untouched form sends exactly that home's
      fields to the update of that id. */
  method EditThenSubmit(page: OrganizationAdminPage, h: Home, token: string, outcome: Outcome<Home>)
      returns (request: Option<Request>)
    requires Truthy(token)
    modifies page
    ensures request == Some(PutHome(h.id, PatchOf(FormOf(h))))
  {
    page.HandleEdit(h);
    var alert;
    request, alert := page.HandleSubmit(Some(token), outcome);
  }
}
