/** The sign-in page: an email, a password and a "remember me" box, submitted to
    the session's `login`; a successful login goes to the admin area for admins and
    to the organisation listing for everyone else. */
module SignInPage {
  import opened Js
  import Jwt
  import opened AuthContext

  datatype SigninForm = SigninForm(email: string, password: string, remember: bool)

  datatype TextField = Email | Password

  /** A change event: a text input's value, or the checkbox's `checked`. */
  datatype Change = TextInput(field: TextField, value: string) | RememberInput(checked: bool)

  /** The body `login` posts: the form's email and password; "remember me" is not sent. */
  datatype LoginRequest = LoginRequest(email: string, password: string)

  const SignedIn: string := "Signed in successfully!"

  const EmptyForm: SigninForm := SigninForm("", "", false)

  /** `handleChange`: only the input named by the event changes. */
  function ApplyChange(f: SigninForm, c: Change): (r: SigninForm)
    ensures c.RememberInput? ==> r == f.(remember := c.checked)
    ensures c.TextInput? && c.field == Email ==> r == f.(email := c.value)
    ensures c.TextInput? && c.field == Password ==> r == f.(password := c.value)
  {
    match c
    case RememberInput(checked) => f.(remember := checked)
    case TextInput(Email, value) => f.(email := value)
    case TextInput(Password, value) => f.(password := value)
  }

  /** Where a signed-in user is sent: the admin area for the role "admin", the
      listing for any other role. */
  function LandingFor(u: ClientUser): (path: string)
    ensures path == "/admin" <==> u.role == "admin"
    ensures path == "/organization" <==> u.role != "admin"
  {
    if u.role == "admin" then "/admin" else "/organization"
  }

  class SigninPage {
    var formData: SigninForm
    var loading: bool

    constructor ()
      ensures formData == EmptyForm && !loading
    {
      formData := EmptyForm;
      loading := false;
    }

    method HandleChange(c: Change)
      modifies this
      ensures formData == ApplyChange(old(formData), c) && loading == old(loading)
    {
      formData := ApplyChange(formData, c);
    }

    /** `handleSubmit`: `login` on the session with what the request produced; on
        success the alert and the landing page for the user's role, otherwise the
        login's message after "Login failed: ". `loading` ends false either way and
        the form is kept. */
    method HandleSubmit(session: AuthSession, response: LoginResponse,
                        parse: string -> Option<Jwt.Payload>)
        returns (request: LoginRequest, result: LoginResult, alert: string, navigate: Option<string>)
      requires session.Valid()
      modifies this, session
      ensures request == LoginRequest(old(formData).email, old(formData).password)
      ensures session.Valid() && !loading && formData == old(formData)
      ensures result.LoggedIn? ==>
                alert == SignedIn && navigate == Some(LandingFor(result.user))
                && session.isAuthenticated && session.user == Some(result.user)
      ensures result.LoginFailed? ==> alert == "Login failed: " + result.message && navigate == None
      ensures response.RequestFailed? ==>
                result == LoginFailed(OrElse(response.serverMessage, response.errorMessage))
      ensures response.Token? && DecodeToken(response.token, parse).None? ==>
                result == LoginFailed(InvalidTokenReceived)
      ensures response.Token? && DecodeToken(response.token, parse).Some? ==>
                result == LoggedIn(UserOf(DecodeToken(response.token, parse).value))
    {
      loading := true;
      request := LoginRequest(formData.email, formData.password);
      result := session.Login(response, parse);
      if result.LoggedIn? {
        alert := SignedIn;
        navigate := Some(LandingFor(result.user));
      } else {
        alert := "Login failed: " + result.message;
        navigate := None;
      }
      loading := false;
    }
  }

  /** An admin's token lands on the admin area: a token whose payload carries the
      role "admin" takes the page to "/admin", and the session's user is that admin. */
  method AdminSignsIn(page: SigninPage, session: AuthSession, token: string,
                      parse: string -> Option<Jwt.Payload>)
      returns (navigate: Option<string>)
    requires session.Valid()
    requires DecodeToken(token, parse).Some? && DecodeToken(token, parse).value.role == "admin"
    modifies page, session
    ensures navigate == Some("/admin")
    ensures session.user.Some? && IsAdmin(session.user)
  {
    var request, result, alert;
    request, result, alert, navigate := page.HandleSubmit(session, Token(token), parse);
  }
}
