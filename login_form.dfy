/**
 * The administrator sign-in form: two required fields, the request flags,
 * and what a response leaves behind (the stored token and signed-in user,
 * or an error message).
 */
module LoginForm {
  import opened Wrappers
  import opened Http
  import opened Text

  datatype Credentials = Credentials(email: string, password: string)
  datatype LoginField = Email | Password

  datatype User = User(name: string, email: string)
  /** The body of a successful sign-in. */
  datatype Session = Session(authToken: string, user: User)

  const EmailRequired := "Email is required"
  const PasswordRequired := "Password is required"
  const InvalidCredentials := "Invalid credentials."
  const GenericFailure := "Something went wrong! Please try again."

  /** The errors `validateForm` reports: one per field that is empty once trimmed. */
  function LoginErrors(c: Credentials): (errors: map<LoginField, string>)
    ensures Email in errors <==> IsBlank(c.email)
    ensures Password in errors <==> IsBlank(c.password)
    ensures Email in errors ==> errors[Email] == EmailRequired
    ensures Password in errors ==> errors[Password] == PasswordRequired
  {
    TrimEmptyIffBlank(c.email);
    TrimEmptyIffBlank(c.password);
    var e := if Trim(c.email) == [] then map[Email := EmailRequired] else map[];
    if Trim(c.password) == [] then e[Password := PasswordRequired] else e
  }

  /** The form is accepted exactly when neither field is blank. */
  lemma {:induction false} LoginValidIff(c: Credentials)
    ensures LoginErrors(c) == map[] <==> !IsBlank(c.email) && !IsBlank(c.password)
  {
    if IsBlank(c.email) {
      assert Email in LoginErrors(c);
    } else if IsBlank(c.password) {
      assert Password in LoginErrors(c);
    }
  }

  /** `handleChange`: the input's name picks the field. */
  function WithField(c: Credentials, field: LoginField, value: string): (r: Credentials)
    ensures field == Email ==> r.email == value && r.password == c.password
    ensures field == Password ==> r.password == value && r.email == c.email
  {
    match field
    case Email => c.(email := value)
    case Password => c.(password := value)
  }

  class SignIn {
    var form: Credentials
    var errors: map<LoginField, string>
    var loading: bool
    var errorMessage: Option<string>
    /** The token written to local storage. */
    var storedToken: Option<string>
    /** The signed-in user shared with the rest of the app. */
    var user: Option<User>

    constructor ()
      ensures form == Credentials("", "") && errors == map[] && !loading && errorMessage == None
      ensures storedToken == None && user == None
    {
      form := Credentials("", "");
      errors := map[];
      loading := false;
      errorMessage := None;
      storedToken := None;
      user := None;
    }

    method HandleChange(field: LoginField, value: string)
      modifies this`form
      ensures form == WithField(old(form), field, value)
    {
      form := WithField(form, field, value);
    }

    /** `validateForm`: the errors are replaced by the new ones; true when there are none. */
    method ValidateForm() returns (ok: bool)
      modifies this`errors
      ensures errors == LoginErrors(form)
      ensures ok <==> !IsBlank(form.email) && !IsBlank(form.password)
    {
      var newErrors: map<LoginField, string> := map[];
      if Trim(form.email) == [] {
        newErrors := newErrors[Email := EmailRequired];
      }
      if Trim(form.password) == [] {
        newErrors := newErrors[Password := PasswordRequired];
      }
      errors := newErrors;
      LoginValidIff(form);
      ok := |newErrors| == 0;
      assert ok <==> newErrors == map[] by {
        if newErrors != map[] {
          var k :| k in newErrors;
        }
      }
    }

    /**
     * `handleSubmit` up to the request: a valid form starts loading, clears
     * the message and sends the credentials; an invalid one sends nothing
     * and leaves the flags as they were.
     */
    method Submit() returns (request: Option<Credentials>)
      modifies this`errors, this`loading, this`errorMessage
      ensures errors == LoginErrors(form)
      ensures request.Some? <==> !IsBlank(form.email) && !IsBlank(form.password)
      ensures request.Some? ==> request.value == form && loading && errorMessage == None
      ensures request.None? ==> loading == old(loading) && errorMessage == old(errorMessage)
    {
      var ok := ValidateForm();
      if ok {
        loading := true;
        errorMessage := None;
        request := Some(form);
      } else {
        request := None;
      }
    }

    /**
     * `handleSubmit` after the request. A 200 stores the token and signs
     * the user in; any other success changes nothing; a 403 reports invalid
     * credentials and every other failure the generic message. Loading ends
     * either way.
     */
    method Settle(response: Response<Session>)
      modifies this`loading, this`errorMessage, this`storedToken, this`user
      ensures !loading
      ensures response.Ok? && response.status == 200 ==>
        storedToken == Some(response.data.authToken) && user == Some(response.data.user) &&
        errorMessage == old(errorMessage)
      ensures response.Ok? && response.status != 200 ==>
        storedToken == old(storedToken) && user == old(user) && errorMessage == old(errorMessage)
      ensures response.Failed? && response.status == 403 ==> errorMessage == Some(InvalidCredentials)
      ensures !response.Ok? && !(response.Failed? && response.status == 403) ==> errorMessage == Some(GenericFailure)
      ensures !response.Ok? ==> storedToken == old(storedToken) && user == old(user)
    {
      if response.Ok? {
        if response.status == 200 {
          storedToken := Some(response.data.authToken);
          user := Some(response.data.user);
        }
      } else if response.Failed? && response.status == 403 {
        errorMessage := Some(InvalidCredentials);
      } else {
        errorMessage := Some(GenericFailure);
      }
      loading := false;
    }
  }
}
