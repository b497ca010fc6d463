/** The sign-up page: a form of five text inputs and a terms checkbox. Submitting
    checks the checkbox, then that the two passwords agree, and only then posts the
    form to the user route. */
module SignUpPage {
  import opened Js
  import UserSchema
  import UserController

  /** The form's state. */
  datatype SignupForm = SignupForm(
    firstName: string,
    lastName: string,
    email: string,
    password: string,
    confirmPassword: string,
    agreed: bool)

  /** The text inputs, by their `name`. */
  datatype TextField = FirstName | LastName | Email | Password | ConfirmPassword

  /** A change event: a text input's value, or the terms checkbox's `checked`. */
  datatype Change = TextInput(field: TextField, value: string) | AgreedInput(checked: bool)

  /** How the post ended: created, or failed with the server's message when the
      response carried one and axios's own message. */
  datatype Outcome = Created | Failed(serverMessage: Option<string>, errorMessage: string)

  const NotAgreed: string := "Please agree to the terms"
  const PasswordsDiffer: string := "Passwords do not match"
  const AccountCreated: string := "User account created successfully!"

  const EmptyForm: SignupForm := SignupForm("", "", "", "", "", false)

  /** `handleChange`: `{ ...formData, [name]: type === "checkbox" ? checked : value }`. */
  function ApplyChange(f: SignupForm, c: Change): (r: SignupForm)
    ensures c.AgreedInput? ==> r == f.(agreed := c.checked)
    ensures c.TextInput? ==> r.agreed == f.agreed
    ensures c.TextInput? && c.field == FirstName ==> r == f.(firstName := c.value)
    ensures c.TextInput? && c.field == LastName ==> r == f.(lastName := c.value)
    ensures c.TextInput? && c.field == Email ==> r == f.(email := c.value)
    ensures c.TextInput? && c.field == Password ==> r == f.(password := c.value)
    ensures c.TextInput? && c.field == ConfirmPassword ==> r == f.(confirmPassword := c.value)
  {
    match c
    case AgreedInput(checked) => f.(agreed := checked)
    case TextInput(field, value) =>
      match field
      case FirstName => f.(firstName := value)
      case LastName => f.(lastName := value)
      case Email => f.(email := value)
      case Password => f.(password := value)
      case ConfirmPassword => f.(confirmPassword := value)
  }

  /** What the user route reads of the posted form: `confirmPassword` and `agreed`
      are ignored and no role is sent. */
  function BodyOf(f: SignupForm): UserController.SignupBody {
    UserController.SignupBody(f.email, f.firstName, f.lastName, f.password, "")
  }

  /** A page sign-up cannot choose a role: the account it creates gets the default one. */
  lemma PageSignupGetsDefaultRole(f: SignupForm, id: UserSchema.Id, hashed: string)
    ensures UserSchema.NewUser(id, BodyOf(f).email, BodyOf(f).firstName, BodyOf(f).lastName,
                               hashed, Some(Or(BodyOf(f).role, UserSchema.DefaultRole))).role
            == UserSchema.DefaultRole
  {
  }

  class SignupPage {
    var formData: SignupForm

    constructor ()
      ensures formData == EmptyForm
    {
      formData := EmptyForm;
    }

    method HandleChange(c: Change)
      modifies this
      ensures formData == ApplyChange(old(formData), c)
    {
      formData := ApplyChange(formData, c);
    }

    /** `handleSubmit`, given how the post would end. The form is sent exactly when
        the terms are agreed and the passwords match; the terms are checked first.
        Success navigates home. The form is kept on every path. */
    method HandleSubmit(outcome: Outcome) returns (request: Option<UserController.SignupBody>,
                                                   alert: string, navigate: Option<string>)
      ensures request.Some? <==> formData.agreed && formData.password == formData.confirmPassword
      ensures !formData.agreed ==> alert == NotAgreed && navigate == None
      ensures formData.agreed && formData.password != formData.confirmPassword ==>
                alert == PasswordsDiffer && navigate == None
      ensures request.Some? ==> request.value == BodyOf(formData)
      ensures request.Some? && outcome.Created? ==> alert == AccountCreated && navigate == Some("/")
      ensures request.Some? && outcome.Failed? ==>
                alert == "Signup failed: " + OrElse(outcome.serverMessage, outcome.errorMessage)
                && navigate == None
    {
      if !formData.agreed {
        return None, NotAgreed, None;
      }
      if formData.password != formData.confirmPassword {
        return None, PasswordsDiffer, None;
      }
      request := Some(BodyOf(formData));
      if outcome.Created? {
        alert := AccountCreated;
        navigate := Some("/");
      } else {
        alert := "Signup failed: " + OrElse(outcome.serverMessage, outcome.errorMessage);
        navigate := None;
      }
    }
  }

  /** Typing the same password into both inputs and ticking the box is enough for
      the form to be sent, whatever else it holds. */
  method FillThenSubmit(page: SignupPage, pw: string, outcome: Outcome)
      returns (request: Option<UserController.SignupBody>)
    modifies page
    ensures request.Some? && request.value.password == pw
  {
    page.HandleChange(TextInput(Password, pw));
    page.HandleChange(TextInput(ConfirmPassword, pw));
    page.HandleChange(AgreedInput(true));
    var alert, navigate;
    request, alert, navigate := page.HandleSubmit(outcome);
  }
}
